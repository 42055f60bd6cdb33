/** ExtendedChartPart: the part class of a chartEx (extended chart) part, its
    fixed content type, its own relationship type, the constraint table of
    the parts it may own, the accessors for those children and the factory
    that instantiates a child from a relationship type. */
module ExtendedChart {
  import opened Wrappers
  import opened Packaging

  const ContentTypeConstant := "application/vnd.ms-office.chartex+xml"
  const RelationshipTypeConstant := "http://schemas.microsoft.com/office/2014/relationships/chartEx"

  /** Every ExtendedChartPart has the one content type above. */
  const IsContentTypeFixed := true

  /** Base name and folder of the archive entry of an ExtendedChartPart. */
  const TargetName := "chart"
  const TargetPath := "extendedCharts"

  function ContentType(): string
  {
    ContentTypeConstant
  }

  function RelationshipType(): string
  {
    RelationshipTypeConstant
  }

  /** The content type is fixed: every part of this class reports the same
      content type, and the same relationship type and archive location. */
  lemma ContentTypeIsFixed()
    ensures IsContentTypeFixed
    ensures ContentType() == "application/vnd.ms-office.chartex+xml"
    ensures RelationshipType() == "http://schemas.microsoft.com/office/2014/relationships/chartEx"
    ensures TargetName == "chart" && TargetPath == "extendedCharts"
  {
  }

  /** The constraint table that the `PartConstraints` getter builds: for each
      relationship type an ExtendedChartPart may own, the child class and its
      multiplicity flags. */
  function PartConstraintRules(): map<string, PartConstraintRule<PartKind>>
  {
    map[
      ChartDrawingPartRelationshipType :=
        PartConstraintRule(ChartDrawingPart, false, false),
      EmbeddedPackagePartRelationshipType :=
        PartConstraintRule(EmbeddedPackagePart, false, false),
      ImagePartRelationshipType :=
        PartConstraintRule(ImagePart, false, true),
      ThemeOverridePartRelationshipType :=
        PartConstraintRule(ThemeOverridePart, false, false),
      ChartStylePartRelationshipType :=
        PartConstraintRule(ChartStylePart, false, true),
      ChartColorStylePartRelationshipType :=
        PartConstraintRule(ChartColorStylePart, false, true)
    ]
  }

  /** The static field `_partConstraints` of ExtendedChartPart: null until
      the `PartConstraints` getter first runs, then the collection it built. */
  class ExtendedChartPartStatics {
    var partConstraints: PartConstraintCollection?<PartKind>

    /** Whatever the field holds is the collection of the table above. */
    ghost predicate Valid()
      reads this
    {
      partConstraints != null ==> partConstraints.rules == PartConstraintRules()
    }

    /** The state before any getter has run. */
    constructor ()
      ensures Valid() && partConstraints == null
    {
      partConstraints := null;
    }

    /** The `PartConstraints` getter: builds the collection when the field is
        null and stores it; otherwise returns the stored collection. */
    method PartConstraints() returns (c: PartConstraintCollection<PartKind>)
      requires Valid()
      modifies this`partConstraints
      ensures Valid()
      ensures c.rules == PartConstraintRules()
      ensures partConstraints == c
      ensures old(partConstraints) == null ==> fresh(c)
      ensures old(partConstraints) != null ==> c == old(partConstraints)
    {
      if partConstraints == null {
        partConstraints := new PartConstraintCollection(PartConstraintRules());
      }
      c := partConstraints;
    }
  }

  /** `CreatePartCore(relationshipType)`: a new, uninitialised child part of
      the class whose relationship-type constant is `relationshipType`; `None`
      stands for a null argument. */
  function CreatePartCore(relationshipType: Option<string>): (r: Result<PartKind, PartCreationError>)
    ensures r == Failure(ArgumentNull) <==> relationshipType == None
    ensures r.Success? ==> AccessorOf(r.value).Some?
  {
    match relationshipType
    case None => Failure(ArgumentNull)
    case Some(t) =>
      if t == ChartDrawingPartRelationshipType then Success(ChartDrawingPart)
      else if t == EmbeddedPackagePartRelationshipType then Success(EmbeddedPackagePart)
      else if t == ImagePartRelationshipType then Success(ImagePart)
      else if t == ThemeOverridePartRelationshipType then Success(ThemeOverridePart)
      else if t == ChartStylePartRelationshipType then Success(ChartStylePart)
      else if t == ChartColorStylePartRelationshipType then Success(ChartColorStylePart)
      else Failure(ArgumentOutOfRange)
  }

  /** The public child accessors of ExtendedChartPart: which child classes
      have one, and whether it returns a single part or an enumeration. */
  function AccessorOf(kind: PartKind): Option<ChildAccessor>
  {
    match kind
    case ChartColorStylePart => Some(GetPartsOfType)
    case ChartDrawingPart => Some(GetSubPartOfType)
    case ChartStylePart => Some(GetPartsOfType)
    case EmbeddedPackagePart => Some(GetSubPartOfType)
    case ImagePart => Some(GetPartsOfType)
    case ThemeOverridePart => Some(GetSubPartOfType)
    case _ => None
  }

  /** The case labels of the `CreatePartCore` switch, in order. */
  function CaseLabels(): seq<string>
  {
    [ ChartDrawingPartRelationshipType,
      EmbeddedPackagePartRelationshipType,
      ImagePartRelationshipType,
      ThemeOverridePartRelationshipType,
      ChartStylePartRelationshipType,
      ChartColorStylePartRelationshipType ]
  }

  /** The switch has no repeated case label. */
  lemma CaseLabelsDistinct()
    ensures |CaseLabels()| == 6 && Distinct(CaseLabels())
  {
  }

  /** The factory and the constraint table agree key for key and kind for
      kind: a listed relationship type yields exactly the class its rule
      names, and every other string is out of range. */
  lemma CreatePartCoreMatchesPartConstraints(t: string)
    ensures CreatePartCore(Some(t)).Success? <==> t in PartConstraintRules()
    ensures t in PartConstraintRules() ==> CreatePartCore(Some(t)) == Success(PartConstraintRules()[t].partKind)
    ensures t !in PartConstraintRules() ==> CreatePartCore(Some(t)) == Failure(ArgumentOutOfRange)
  {
    if t in PartConstraintRules() {
      CaseLabelsDistinct();
    }
  }

  /** The initializer adds six distinct keys, so building the table never
      meets a duplicate key. */
  lemma PartConstraintsHaveSixKeys()
    ensures PartConstraintRules().Keys == Elements(CaseLabels())
    ensures |PartConstraintRules()| == 6
  {
    CaseLabelsDistinct();
    DistinctElementsCount(CaseLabels());
    assert PartConstraintRules().Keys == Elements(CaseLabels());
  }

  /** Exactly the chart drawing, the embedded package and the theme override
      are singletons; the image, chart style and chart colour style may
      repeat. */
  lemma SingletonRules()
    ensures SingletonRelationshipTypes(PartConstraintRules()) ==
      {ChartDrawingPartRelationshipType, EmbeddedPackagePartRelationshipType, ThemeOverridePartRelationshipType}
  {
    CaseLabelsDistinct();
  }

  /** No child class is mandatory for an ExtendedChartPart. */
  lemma NoMandatoryChildren()
    ensures NoRequiredChildren(PartConstraintRules())
  {
  }

  /** Every child class of the table, and no other, has an accessor, and its
      shape is the one the rule's repeat flag calls for. */
  lemma AccessorsMatchPartConstraints()
    ensures forall t | t in PartConstraintRules() ::
      AccessorOf(PartConstraintRules()[t].partKind) == Some(AccessorFor(PartConstraintRules()[t]))
    ensures forall k | AccessorOf(k).Some? ::
      exists t :: t in PartConstraintRules() && PartConstraintRules()[t].partKind == k
  {
    CaseLabelsDistinct();
    var rules := PartConstraintRules();
    forall k | AccessorOf(k).Some?
      ensures exists t :: t in rules && rules[t].partKind == k
    {
      var t :=
        match k
        case ChartColorStylePart => ChartColorStylePartRelationshipType
        case ChartDrawingPart => ChartDrawingPartRelationshipType
        case ChartStylePart => ChartStylePartRelationshipType
        case EmbeddedPackagePart => EmbeddedPackagePartRelationshipType
        case ImagePart => ImagePartRelationshipType
        case _ => ThemeOverridePartRelationshipType;
      assert t in rules && rules[t].partKind == k;
    }
  }
}
