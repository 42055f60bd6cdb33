/** How the two part classes fit together: the relationship-type constant of
    every part class they mention, the slide master's ownership of extended
    charts, and the scoping of constraints to the owning class. */
module PartRelationships {
  import opened Wrappers
  import opened Packaging
  import SlideMaster
  import ExtendedChart

  /** `K.RelationshipTypeConstant` for each part class `K`. */
  function RelationshipTypeOf(kind: PartKind): string
  {
    match kind
    case CustomXmlPart => CustomXmlPartRelationshipType
    case ChartPart => ChartPartRelationshipType
    case ExtendedChartPart => ExtendedChart.RelationshipTypeConstant
    case DiagramColorsPart => DiagramColorsPartRelationshipType
    case DiagramDataPart => DiagramDataPartRelationshipType
    case DiagramPersistLayoutPart => DiagramPersistLayoutPartRelationshipType
    case DiagramLayoutDefinitionPart => DiagramLayoutDefinitionPartRelationshipType
    case DiagramStylePart => DiagramStylePartRelationshipType
    case EmbeddedObjectPart => EmbeddedObjectPartRelationshipType
    case EmbeddedPackagePart => EmbeddedPackagePartRelationshipType
    case ImagePart => ImagePartRelationshipType
    case VmlDrawingPart => VmlDrawingPartRelationshipType
    case EmbeddedControlPersistenceBinaryDataPart => EmbeddedControlPersistenceBinaryDataPartRelationshipType
    case ThemePart => ThemePartRelationshipType
    case SlidePart => SlidePartRelationshipType
    case SlideLayoutPart => SlideLayoutPartRelationshipType
    case EmbeddedControlPersistencePart => EmbeddedControlPersistencePartRelationshipType
    case UserDefinedTagsPart => UserDefinedTagsPartRelationshipType
    case SlideMasterPart => SlideMaster.RelationshipTypeConstant
    case ChartDrawingPart => ChartDrawingPartRelationshipType
    case ThemeOverridePart => ThemeOverridePartRelationshipType
    case ChartStylePart => ChartStylePartRelationshipType
    case ChartColorStylePart => ChartColorStylePartRelationshipType
  }

  /** The slide master's factory answers `case K.RelationshipTypeConstant:
      return new K()`: whatever it creates is the class whose constant was
      the argument. */
  lemma SlideMasterCreatesClassOfConstant(t: string)
    requires SlideMaster.CreatePartCore(Some(t)).Success?
    ensures RelationshipTypeOf(SlideMaster.CreatePartCore(Some(t)).value) == t
  {
    var k := SlideMaster.CreatePartCore(Some(t)).value;
    // One case per class the switch can create.
    assert t == RelationshipTypeOf(k) by {
      match k
      case CustomXmlPart =>
      case ChartPart =>
      case ExtendedChartPart =>
      case DiagramColorsPart =>
      case DiagramDataPart =>
      case DiagramPersistLayoutPart =>
      case DiagramLayoutDefinitionPart =>
      case DiagramStylePart =>
      case EmbeddedObjectPart =>
      case EmbeddedPackagePart =>
      case ImagePart =>
      case VmlDrawingPart =>
      case EmbeddedControlPersistenceBinaryDataPart =>
      case ThemePart =>
      case SlidePart =>
      case SlideLayoutPart =>
      case EmbeddedControlPersistencePart =>
      case UserDefinedTagsPart =>
      case _ =>
    }
  }

  /** The same for the extended chart's factory. */
  lemma ExtendedChartCreatesClassOfConstant(t: string)
    requires ExtendedChart.CreatePartCore(Some(t)).Success?
    ensures RelationshipTypeOf(ExtendedChart.CreatePartCore(Some(t)).value) == t
  {
  }

  /** A key of the slide master's part table is the relationship-type
      constant of the class its rule names, and the factory creates that
      class: the switch's `case K.RelationshipTypeConstant: return new K()`
      pairs each constant with its own class. */
  lemma SlideMasterKeysAreTargetConstants(t: string)
    requires t in SlideMaster.PartConstraintRules()
    ensures t == RelationshipTypeOf(SlideMaster.PartConstraintRules()[t].partKind)
    ensures SlideMaster.CreatePartCore(Some(t)) == Success(SlideMaster.PartConstraintRules()[t].partKind)
  {
    SlideMaster.CreatePartCoreCreatesRuleKind(t);
    SlideMasterCreatesClassOfConstant(t);
  }

  /** The same for the extended chart's part table. */
  lemma ExtendedChartKeysAreTargetConstants(t: string)
    requires t in ExtendedChart.PartConstraintRules()
    ensures t == RelationshipTypeOf(ExtendedChart.PartConstraintRules()[t].partKind)
    ensures ExtendedChart.CreatePartCore(Some(t)) == Success(ExtendedChart.PartConstraintRules()[t].partKind)
  {
    ExtendedChart.CreatePartCoreMatchesPartConstraints(t);
    ExtendedChartCreatesClassOfConstant(t);
  }

  /** An ExtendedChartPart is reached from a slide master under its own
      relationship type: the slide master's table lists it as an optional,
      repeatable child and the slide master's factory creates it. */
  lemma SlideMasterOwnsExtendedCharts()
    ensures ExtendedChart.RelationshipType() in SlideMaster.PartConstraintRules()
    ensures SlideMaster.PartConstraintRules()[ExtendedChart.RelationshipType()] ==
      PartConstraintRule(ExtendedChartPart, false, true)
    ensures SlideMaster.CreatePartCore(Some(ExtendedChart.RelationshipType())) == Success(ExtendedChartPart)
  {
    SlideMaster.CreatePartCoreCreatesRuleKind(ExtendedChart.RelationshipType());
    SlideMaster.CaseLabelsDistinct();
  }

  /** Multiplicity belongs to the owner, not to the relationship type: the
      embedded package is a singleton under an extended chart but may repeat
      under a slide master. Where the two tables share a key they agree on
      the target class. */
  lemma ConstraintsArePerOwner()
    ensures EmbeddedPackagePartRelationshipType in ExtendedChart.PartConstraintRules()
    ensures EmbeddedPackagePartRelationshipType in SlideMaster.PartConstraintRules()
    ensures !ExtendedChart.PartConstraintRules()[EmbeddedPackagePartRelationshipType].maxOccursGreatThanOne
    ensures SlideMaster.PartConstraintRules()[EmbeddedPackagePartRelationshipType].maxOccursGreatThanOne
    ensures forall t | t in ExtendedChart.PartConstraintRules() && t in SlideMaster.PartConstraintRules() ::
      ExtendedChart.PartConstraintRules()[t].partKind == SlideMaster.PartConstraintRules()[t].partKind
  {
    forall t | t in ExtendedChart.PartConstraintRules() && t in SlideMaster.PartConstraintRules()
      ensures ExtendedChart.PartConstraintRules()[t].partKind == SlideMaster.PartConstraintRules()[t].partKind
    {
      SlideMasterKeysAreTargetConstants(t);
      ExtendedChartKeysAreTargetConstants(t);
      SlideMaster.CreatePartCoreCreatesRuleKind(t);
      ExtendedChart.CreatePartCoreMatchesPartConstraints(t);
    }
    SlideMaster.CaseLabelsDistinct();
    ExtendedChart.CaseLabelsDistinct();
  }
}
