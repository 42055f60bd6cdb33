/** The vocabulary shared by the generated part classes: the part kinds, the
    relationship-type URI each kind is reached by, the constraint rule and the
    constraint collection. */
module Packaging {
  import opened Wrappers

  /** The part classes that SlideMasterPart and ExtendedChartPart own, plus
      those two classes themselves. */
  datatype PartKind =
    | CustomXmlPart
    | ChartPart
    | ExtendedChartPart
    | DiagramColorsPart
    | DiagramDataPart
    | DiagramPersistLayoutPart
    | DiagramLayoutDefinitionPart
    | DiagramStylePart
    | EmbeddedObjectPart
    | EmbeddedPackagePart
    | ImagePart
    | VmlDrawingPart
    | EmbeddedControlPersistenceBinaryDataPart
    | ThemePart
    | SlidePart
    | SlideLayoutPart
    | EmbeddedControlPersistencePart
    | UserDefinedTagsPart
    | SlideMasterPart
    | ChartDrawingPart
    | ThemeOverridePart
    | ChartStylePart
    | ChartColorStylePart

  /** The reference-relationship classes: edges to shared media data that
      are not parts and are never created by a part factory. */
  datatype ReferenceKind =
    | AudioReferenceRelationship
    | VideoReferenceRelationship
    | MediaReferenceRelationship

  // `X.RelationshipTypeConstant` of the part classes `X` whose own files are
  // not part of this model: the relationship-type URI under which a part of
  // class `X` is the target of a relationship. Each value is the key that
  // `X` is paired with in the constraint tables of SlideMasterPart and
  // ExtendedChartPart (the constants of those two classes are declared in
  // their own modules).

  const CustomXmlPartRelationshipType := "http://schemas.openxmlformats.org/officeDocument/2006/relationships/customXml"
  const ChartPartRelationshipType := "http://schemas.openxmlformats.org/officeDocument/2006/relationships/chart"
  const DiagramColorsPartRelationshipType := "http://schemas.openxmlformats.org/officeDocument/2006/relationships/diagramColors"
  const DiagramDataPartRelationshipType := "http://schemas.openxmlformats.org/officeDocument/2006/relationships/diagramData"
  const DiagramPersistLayoutPartRelationshipType := "http://schemas.microsoft.com/office/2007/relationships/diagramDrawing"
  const DiagramLayoutDefinitionPartRelationshipType := "http://schemas.openxmlformats.org/officeDocument/2006/relationships/diagramLayout"
  const DiagramStylePartRelationshipType := "http://schemas.openxmlformats.org/officeDocument/2006/relationships/diagramQuickStyle"
  const EmbeddedObjectPartRelationshipType := "http://schemas.openxmlformats.org/officeDocument/2006/relationships/oleObject"
  const EmbeddedPackagePartRelationshipType := "http://schemas.openxmlformats.org/officeDocument/2006/relationships/package"
  const ImagePartRelationshipType := "http://schemas.openxmlformats.org/officeDocument/2006/relationships/image"
  const VmlDrawingPartRelationshipType := "http://schemas.openxmlformats.org/officeDocument/2006/relationships/vmlDrawing"
  const EmbeddedControlPersistenceBinaryDataPartRelationshipType := "http://schemas.microsoft.com/office/2006/relationships/activeXControlBinary"
  const ThemePartRelationshipType := "http://schemas.openxmlformats.org/officeDocument/2006/relationships/theme"
  const SlidePartRelationshipType := "http://schemas.openxmlformats.org/officeDocument/2006/relationships/slide"
  const SlideLayoutPartRelationshipType := "http://schemas.openxmlformats.org/officeDocument/2006/relationships/slideLayout"
  const EmbeddedControlPersistencePartRelationshipType := "http://schemas.openxmlformats.org/officeDocument/2006/relationships/control"
  const UserDefinedTagsPartRelationshipType := "http://schemas.openxmlformats.org/officeDocument/2006/relationships/tags"
  const ChartDrawingPartRelationshipType := "http://schemas.openxmlformats.org/officeDocument/2006/relationships/chartUserShapes"
  const ThemeOverridePartRelationshipType := "http://schemas.openxmlformats.org/officeDocument/2006/relationships/themeOverride"
  const ChartStylePartRelationshipType := "http://schemas.microsoft.com/office/2011/relationships/chartStyle"
  const ChartColorStylePartRelationshipType := "http://schemas.microsoft.com/office/2011/relationships/chartColorStyle"

  // The relationship-type URIs of the reference-relationship classes, taken
  // from SlideMasterPart's data-part reference table.

  const AudioReferenceRelationshipType := "http://schemas.openxmlformats.org/officeDocument/2006/relationships/audio"
  const VideoReferenceRelationshipType := "http://schemas.openxmlformats.org/officeDocument/2006/relationships/video"
  const MediaReferenceRelationshipType := "http://schemas.microsoft.com/office/2007/relationships/media"

  /** `PartConstraintRule.Create<K>(minOccursIsNonZero, maxOccursGreatThanOne)`:
      the target class of a relationship type, whether an owner must have at
      least one such target, and whether it may have more than one. */
  datatype PartConstraintRule<K> =
    PartConstraintRule(partKind: K, minOccursIsNonZero: bool, maxOccursGreatThanOne: bool)

  /** A constraint collection: an immutable dictionary from relationship-type
      URI to rule. It is a reference type, so two getters can be compared for
      returning the same collection object. */
  class PartConstraintCollection<K> {
    const rules: map<string, PartConstraintRule<K>>

    constructor (rules: map<string, PartConstraintRule<K>>)
      ensures this.rules == rules
    {
      this.rules := rules;
    }
  }

  /** The exceptions a `CreatePartCore` switch raises. */
  datatype PartCreationError = ArgumentNull | ArgumentOutOfRange

  /** How a generated part class exposes its children of one kind:
      `GetSubPartOfType<T>()` yields the single child (or null),
      `GetPartsOfType<T>()` enumerates all of them. */
  datatype ChildAccessor = GetSubPartOfType | GetPartsOfType

  /** The accessor a rule calls for: one child when the relationship may not
      repeat, an enumeration when it may. */
  function AccessorFor<K>(rule: PartConstraintRule<K>): ChildAccessor
  {
    if rule.maxOccursGreatThanOne then GetPartsOfType else GetSubPartOfType
  }

  /** The relationship types of a table that admit at most one target. */
  function SingletonRelationshipTypes<K>(rules: map<string, PartConstraintRule<K>>): set<string>
  {
    set t | t in rules && !rules[t].maxOccursGreatThanOne
  }

  /** True when no rule of the table makes a child mandatory. */
  predicate NoRequiredChildren<K>(rules: map<string, PartConstraintRule<K>>)
  {
    forall t :: t in rules ==> !rules[t].minOccursIsNonZero
  }

  /** True when no string occurs twice in `s`: a C# `switch` on string
      constants must not repeat a case label, and a constraint table is
      taken to reject a repeated key. */
  predicate Distinct(s: seq<string>)
  {
    forall i, j | 0 <= i < j < |s| :: s[i] != s[j]
  }

  /** The set of strings listed in `s`. */
  function Elements(s: seq<string>): set<string>
  {
    set x | x in s
  }

  /** A list without repetitions has as many elements as its set. */
  lemma {:induction false} DistinctElementsCount(s: seq<string>)
    requires Distinct(s)
    ensures |Elements(s)| == |s|
  {
    if s != [] {
      assert Distinct(s[1..]) by {
        forall i, j | 0 <= i < j < |s[1..]| ensures s[1..][i] != s[1..][j] {
          assert s[1..][i] == s[i + 1] && s[1..][j] == s[j + 1];
        }
      }
      DistinctElementsCount(s[1..]);
      assert Elements(s) == {s[0]} + Elements(s[1..]);
      assert s[0] !in Elements(s[1..]) by {
        forall j | 0 <= j < |s[1..]| ensures s[1..][j] != s[0] {
          assert s[1..][j] == s[j + 1];
        }
      }
    }
  }
}
