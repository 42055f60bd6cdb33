/** SlideMasterPart: the part class of a presentation slide master, its fixed
    content type, its own relationship type, the constraint tables of the
    parts and of the media references it may own, the accessors for its
    children and the factory that instantiates a child from a relationship
    type. */
module SlideMaster {
  import opened Wrappers
  import opened Packaging
  import ExtendedChart

  const ContentTypeConstant := "application/vnd.openxmlformats-officedocument.presentationml.slideMaster+xml"
  const RelationshipTypeConstant := "http://schemas.openxmlformats.org/officeDocument/2006/relationships/slideMaster"

  /** Every SlideMasterPart has the one content type above. */
  const IsContentTypeFixed := true

  /** Base name and folder of the archive entry of a SlideMasterPart. */
  const TargetName := "slideMaster"
  const TargetPath := "slideMasters"

  function ContentType(): string
  {
    ContentTypeConstant
  }

  function RelationshipType(): string
  {
    RelationshipTypeConstant
  }

  /** The content type is fixed: every part of this class reports the same
      content type, and the same relationship type and archive location. */
  lemma ContentTypeIsFixed()
    ensures IsContentTypeFixed
    ensures ContentType() == "application/vnd.openxmlformats-officedocument.presentationml.slideMaster+xml"
    ensures RelationshipType() == "http://schemas.openxmlformats.org/officeDocument/2006/relationships/slideMaster"
    ensures TargetName == "slideMaster" && TargetPath == "slideMasters"
  {
  }

  /** The key of the extended-chart entry of the part table, as the table's
      initializer spells it; the switch names the same relationship type by
      ExtendedChartPart's own constant instead. */
  const ChartExKey := "http://schemas.microsoft.com/office/2014/relationships/chartEx"

  /** The table's chartEx key is ExtendedChartPart's own relationship-type
      constant, so the table and the switch name the same string. */
  lemma ChartExKeyIsExtendedChartConstant()
    ensures ChartExKey == ExtendedChart.RelationshipTypeConstant
  {
  }

  /** The table that the `DataPartReferenceConstraints` getter builds: the
      media references a slide master may hold, each optional and
      repeatable. */
  function DataPartReferenceConstraintRules(): map<string, PartConstraintRule<ReferenceKind>>
  {
    map[
      AudioReferenceRelationshipType :=
        PartConstraintRule(AudioReferenceRelationship, false, true),
      VideoReferenceRelationshipType :=
        PartConstraintRule(VideoReferenceRelationship, false, true),
      MediaReferenceRelationshipType :=
        PartConstraintRule(MediaReferenceRelationship, false, true)
    ]
  }

  /** The table that the `PartConstraints` getter builds: for each
      relationship type a SlideMasterPart may own, the child class and its
      multiplicity flags. */
  function PartConstraintRules(): map<string, PartConstraintRule<PartKind>>
  {
    map[
      CustomXmlPartRelationshipType :=
        PartConstraintRule(CustomXmlPart, false, true),
      ChartPartRelationshipType :=
        PartConstraintRule(ChartPart, false, true),
      ChartExKey :=
        PartConstraintRule(ExtendedChartPart, false, true),
      DiagramColorsPartRelationshipType :=
        PartConstraintRule(DiagramColorsPart, false, true),
      DiagramDataPartRelationshipType :=
        PartConstraintRule(DiagramDataPart, false, true),
      DiagramPersistLayoutPartRelationshipType :=
        PartConstraintRule(DiagramPersistLayoutPart, false, true),
      DiagramLayoutDefinitionPartRelationshipType :=
        PartConstraintRule(DiagramLayoutDefinitionPart, false, true),
      DiagramStylePartRelationshipType :=
        PartConstraintRule(DiagramStylePart, false, true),
      EmbeddedObjectPartRelationshipType :=
        PartConstraintRule(EmbeddedObjectPart, false, true),
      EmbeddedPackagePartRelationshipType :=
        PartConstraintRule(EmbeddedPackagePart, false, true),
      ImagePartRelationshipType :=
        PartConstraintRule(ImagePart, false, true),
      VmlDrawingPartRelationshipType :=
        PartConstraintRule(VmlDrawingPart, false, true),
      EmbeddedControlPersistenceBinaryDataPartRelationshipType :=
        PartConstraintRule(EmbeddedControlPersistenceBinaryDataPart, false, true),
      ThemePartRelationshipType :=
        PartConstraintRule(ThemePart, false, false),
      SlidePartRelationshipType :=
        PartConstraintRule(SlidePart, false, true),
      SlideLayoutPartRelationshipType :=
        PartConstraintRule(SlideLayoutPart, false, true),
      EmbeddedControlPersistencePartRelationshipType :=
        PartConstraintRule(EmbeddedControlPersistencePart, false, true),
      UserDefinedTagsPartRelationshipType :=
        PartConstraintRule(UserDefinedTagsPart, false, true)
    ]
  }

  /** The static fields `_dataPartConstraints` and `_partConstraints` of
      SlideMasterPart: each null until its getter first runs, then the
      collection that getter built. */
  class SlideMasterPartStatics {
    var dataPartConstraints: PartConstraintCollection?<ReferenceKind>
    var partConstraints: PartConstraintCollection?<PartKind>

    /** Whatever the fields hold are the collections of the tables above. */
    ghost predicate Valid()
      reads this
    {
      && (dataPartConstraints != null ==> dataPartConstraints.rules == DataPartReferenceConstraintRules())
      && (partConstraints != null ==> partConstraints.rules == PartConstraintRules())
    }

    /** The state before any getter has run. */
    constructor ()
      ensures Valid() && dataPartConstraints == null && partConstraints == null
    {
      dataPartConstraints := null;
      partConstraints := null;
    }

    /** The `DataPartReferenceConstraints` getter: builds the collection when
        the field is null and stores it; otherwise returns the stored one. */
    method DataPartReferenceConstraints() returns (c: PartConstraintCollection<ReferenceKind>)
      requires Valid()
      modifies this`dataPartConstraints
      ensures Valid()
      ensures c.rules == DataPartReferenceConstraintRules()
      ensures dataPartConstraints == c
      ensures old(dataPartConstraints) == null ==> fresh(c)
      ensures old(dataPartConstraints) != null ==> c == old(dataPartConstraints)
    {
      if dataPartConstraints == null {
        dataPartConstraints := new PartConstraintCollection(DataPartReferenceConstraintRules());
      }
      c := dataPartConstraints;
    }

    /** The `PartConstraints` getter: builds the collection when the field is
        null and stores it; otherwise returns the stored one. */
    method PartConstraints() returns (c: PartConstraintCollection<PartKind>)
      requires Valid()
      modifies this`partConstraints
      ensures Valid()
      ensures c.rules == PartConstraintRules()
      ensures partConstraints == c
      ensures old(partConstraints) == null ==> fresh(c)
      ensures old(partConstraints) != null ==> c == old(partConstraints)
    {
      if partConstraints == null {
        partConstraints := new PartConstraintCollection(PartConstraintRules());
      }
      c := partConstraints;
    }
  }

  /** `CreatePartCore(relationshipType)`: a new, uninitialised child part of
      the class whose relationship-type constant is `relationshipType`; `None`
      stands for a null argument. */
  function CreatePartCore(relationshipType: Option<string>): (r: Result<PartKind, PartCreationError>)
    ensures r == Failure(ArgumentNull) <==> relationshipType == None
    ensures r.Success? ==> AccessorOf(r.value).Some?
  {
    match relationshipType
    case None => Failure(ArgumentNull)
    case Some(t) =>
      if t == CustomXmlPartRelationshipType then Success(CustomXmlPart)
      else if t == ChartPartRelationshipType then Success(ChartPart)
      else if t == ExtendedChart.RelationshipTypeConstant then Success(ExtendedChartPart)
      else if t == DiagramColorsPartRelationshipType then Success(DiagramColorsPart)
      else if t == DiagramDataPartRelationshipType then Success(DiagramDataPart)
      else if t == DiagramPersistLayoutPartRelationshipType then Success(DiagramPersistLayoutPart)
      else if t == DiagramLayoutDefinitionPartRelationshipType then Success(DiagramLayoutDefinitionPart)
      else if t == DiagramStylePartRelationshipType then Success(DiagramStylePart)
      else if t == EmbeddedObjectPartRelationshipType then Success(EmbeddedObjectPart)
      else if t == EmbeddedPackagePartRelationshipType then Success(EmbeddedPackagePart)
      else if t == ImagePartRelationshipType then Success(ImagePart)
      else if t == VmlDrawingPartRelationshipType then Success(VmlDrawingPart)
      else if t == EmbeddedControlPersistenceBinaryDataPartRelationshipType then Success(EmbeddedControlPersistenceBinaryDataPart)
      else if t == ThemePartRelationshipType then Success(ThemePart)
      else if t == SlidePartRelationshipType then Success(SlidePart)
      else if t == SlideLayoutPartRelationshipType then Success(SlideLayoutPart)
      else if t == EmbeddedControlPersistencePartRelationshipType then Success(EmbeddedControlPersistencePart)
      else if t == UserDefinedTagsPartRelationshipType then Success(UserDefinedTagsPart)
      else Failure(ArgumentOutOfRange)
  }

  /** The public child accessors of SlideMasterPart: which child classes have
      one, and whether it returns a single part or an enumeration. */
  function AccessorOf(kind: PartKind): Option<ChildAccessor>
  {
    match kind
    case ChartPart => Some(GetPartsOfType)
    case CustomXmlPart => Some(GetPartsOfType)
    case DiagramColorsPart => Some(GetPartsOfType)
    case DiagramDataPart => Some(GetPartsOfType)
    case DiagramLayoutDefinitionPart => Some(GetPartsOfType)
    case DiagramPersistLayoutPart => Some(GetPartsOfType)
    case DiagramStylePart => Some(GetPartsOfType)
    case EmbeddedControlPersistenceBinaryDataPart => Some(GetPartsOfType)
    case EmbeddedControlPersistencePart => Some(GetPartsOfType)
    case EmbeddedObjectPart => Some(GetPartsOfType)
    case EmbeddedPackagePart => Some(GetPartsOfType)
    case ExtendedChartPart => Some(GetPartsOfType)
    case ImagePart => Some(GetPartsOfType)
    case ThemePart => Some(GetSubPartOfType)
    case SlideLayoutPart => Some(GetPartsOfType)
    case SlidePart => Some(GetPartsOfType)
    case UserDefinedTagsPart => Some(GetPartsOfType)
    case VmlDrawingPart => Some(GetPartsOfType)
    case _ => None
  }

  /** The case labels of the `CreatePartCore` switch, in order. */
  function CaseLabels(): seq<string>
  {
    [ CustomXmlPartRelationshipType,
      ChartPartRelationshipType,
      ExtendedChart.RelationshipTypeConstant,
      DiagramColorsPartRelationshipType,
      DiagramDataPartRelationshipType,
      DiagramPersistLayoutPartRelationshipType,
      DiagramLayoutDefinitionPartRelationshipType,
      DiagramStylePartRelationshipType,
      EmbeddedObjectPartRelationshipType,
      EmbeddedPackagePartRelationshipType,
      ImagePartRelationshipType,
      VmlDrawingPartRelationshipType,
      EmbeddedControlPersistenceBinaryDataPartRelationshipType,
      ThemePartRelationshipType,
      SlidePartRelationshipType,
      SlideLayoutPartRelationshipType,
      EmbeddedControlPersistencePartRelationshipType,
      UserDefinedTagsPartRelationshipType ]
  }

  /** The switch has no repeated case label. */
  lemma CaseLabelsDistinct()
    ensures |CaseLabels()| == 18 && Distinct(CaseLabels())
  {
  }

  /** Every string the factory accepts is a key of the part table, and the
      class it creates is the one that key's rule names. */
  lemma CreatePartCoreCreatesRuleKind(t: string)
    requires t in PartConstraintRules()
    ensures CreatePartCore(Some(t)) == Success(PartConstraintRules()[t].partKind)
  {
    CaseLabelsDistinct();
    // Case split on the position of `t` among the labels, six at a time.
    var labels := CaseLabels();
    if t in labels[..6] {
    } else if t in labels[6..12] {
    }
  }

  /** A string that is not a key of the part table is out of range. */
  lemma CreatePartCoreRejectsUnlisted(t: string)
    requires t !in PartConstraintRules()
    ensures CreatePartCore(Some(t)) == Failure(ArgumentOutOfRange)
  {
  }

  /** The factory and the part table agree key for key and kind for kind:
      the factory succeeds exactly on the table's keys, with the rule's
      class, and rejects every other string as out of range. */
  lemma CreatePartCoreMatchesPartConstraints(t: string)
    ensures CreatePartCore(Some(t)).Success? <==> t in PartConstraintRules()
    ensures t in PartConstraintRules() ==> CreatePartCore(Some(t)) == Success(PartConstraintRules()[t].partKind)
    ensures t !in PartConstraintRules() ==> CreatePartCore(Some(t)) == Failure(ArgumentOutOfRange)
  {
    if t in PartConstraintRules() {
      CreatePartCoreCreatesRuleKind(t);
    } else {
      CreatePartCoreRejectsUnlisted(t);
    }
  }

  /** The part table has exactly the eighteen case labels as keys, so its
      initializer never meets a duplicate key. */
  lemma PartConstraintsHaveEighteenKeys()
    ensures PartConstraintRules().Keys == Elements(CaseLabels())
    ensures |PartConstraintRules()| == 18
  {
    CaseLabelsDistinct();
    DistinctElementsCount(CaseLabels());
    assert PartConstraintRules().Keys == Elements(CaseLabels());
  }

  /** The theme is the only singleton child of a slide master; the other
      seventeen relationship types may repeat. */
  lemma SingletonRules()
    ensures SingletonRelationshipTypes(PartConstraintRules()) == {ThemePartRelationshipType}
  {
    CaseLabelsDistinct();
  }

  /** No child class is mandatory for a SlideMasterPart. */
  lemma NoMandatoryChildren()
    ensures NoRequiredChildren(PartConstraintRules())
  {
  }

  /** The child class of a part-table key has an accessor, of the shape its
      rule's repeat flag calls for. */
  lemma AccessorFollowsRule(t: string)
    requires t in PartConstraintRules()
    ensures AccessorOf(PartConstraintRules()[t].partKind) == Some(AccessorFor(PartConstraintRules()[t]))
  {
    CaseLabelsDistinct();
    // Case split on the position of `t` among the labels, six at a time.
    var labels := CaseLabels();
    if t in labels[..6] {
    } else if t in labels[6..12] {
    }
  }

  /** A child class with an accessor is the class of some part-table rule. */
  lemma AccessorHasRule(k: PartKind)
    requires AccessorOf(k).Some?
    ensures exists t :: t in PartConstraintRules() && PartConstraintRules()[t].partKind == k
  {
    var labels := CaseLabels();
    var i :=
      match k
      case CustomXmlPart => 0
      case ChartPart => 1
      case ExtendedChartPart => 2
      case DiagramColorsPart => 3
      case DiagramDataPart => 4
      case DiagramPersistLayoutPart => 5
      case DiagramLayoutDefinitionPart => 6
      case DiagramStylePart => 7
      case EmbeddedObjectPart => 8
      case EmbeddedPackagePart => 9
      case ImagePart => 10
      case VmlDrawingPart => 11
      case EmbeddedControlPersistenceBinaryDataPart => 12
      case ThemePart => 13
      case SlidePart => 14
      case SlideLayoutPart => 15
      case EmbeddedControlPersistencePart => 16
      case _ => 17;
    CreatePartCoreCreatesRuleKind(labels[i]);
    assert labels[i] in PartConstraintRules() && PartConstraintRules()[labels[i]].partKind == k;
  }

  /** Every child class of the part table, and no other, has an accessor,
      and its shape is the one the rule's repeat flag calls for. */
  lemma AccessorsMatchPartConstraints()
    ensures forall t | t in PartConstraintRules() ::
      AccessorOf(PartConstraintRules()[t].partKind) == Some(AccessorFor(PartConstraintRules()[t]))
    ensures forall k | AccessorOf(k).Some? ::
      exists t :: t in PartConstraintRules() && PartConstraintRules()[t].partKind == k
  {
    forall t | t in PartConstraintRules()
      ensures AccessorOf(PartConstraintRules()[t].partKind) == Some(AccessorFor(PartConstraintRules()[t]))
    {
      AccessorFollowsRule(t);
    }
    forall k | AccessorOf(k).Some?
      ensures exists t :: t in PartConstraintRules() && PartConstraintRules()[t].partKind == k
    {
      AccessorHasRule(k);
    }
  }

  /** The media-reference table holds exactly the audio, video and media
      relationship types, each optional and repeatable and paired with its
      own reference class. */
  lemma DataPartReferenceRules()
    ensures DataPartReferenceConstraintRules().Keys ==
      {AudioReferenceRelationshipType, VideoReferenceRelationshipType, MediaReferenceRelationshipType}
    ensures DataPartReferenceConstraintRules()[AudioReferenceRelationshipType] ==
      PartConstraintRule(AudioReferenceRelationship, false, true)
    ensures DataPartReferenceConstraintRules()[VideoReferenceRelationshipType] ==
      PartConstraintRule(VideoReferenceRelationship, false, true)
    ensures DataPartReferenceConstraintRules()[MediaReferenceRelationshipType] ==
      PartConstraintRule(MediaReferenceRelationship, false, true)
  {
  }

  /** A media reference is never a part: its relationship types are not keys
      of the part table and the factory rejects each of them. */
  lemma DataPartReferencesAreNotParts(t: string)
    requires t in DataPartReferenceConstraintRules()
    ensures t !in PartConstraintRules()
    ensures CreatePartCore(Some(t)) == Failure(ArgumentOutOfRange)
  {
  }
}
