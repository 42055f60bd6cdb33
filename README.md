# Relationship configuration of SlideMasterPart and ExtendedChartPart

In the Open XML SDK a document package is a graph of parts joined by typed
relationships. Each generated part class states which relationship types it
may own. It does so in a constraint table, `PartConstraints`, that maps a
relationship-type URI to a rule. A rule names the child class and two flags:
whether at least one child is required, and whether more than one is allowed.
A second factory, `CreatePartCore`, turns a relationship-type string into a
fresh, uninitialised child part. It raises an argument-null error for
`null` and an out-of-range error for any string it does not list.
SlideMasterPart also owns a table of media references (audio, video, media),
`DataPartReferenceConstraints`. Both tables live in static fields that are
built on the first read and returned unchanged on every later read.

This project models two generated classes: SlideMasterPart, with 18 child
relationship types, and ExtendedChartPart, with 6. For each it models the
constants, the constraint tables, the factory and the shape of the child
accessors. The proofs show the following:

- The factory and the table agree key for key and class for class.
- The multiplicity flags are exactly those of the source, and they match the
  singular or plural shape of the public accessors.
- The memoised getters return one collection object for ever.
- The two classes fit together. The slide master's table writes its chartEx
  key as a string of its own, and that string equals the extended chart's
  own relationship-type constant. So a slide master owns extended charts
  under the extended chart's own relationship type.

Modules:

- `Wrappers` (wrappers.dfy) holds `Option`, which stands for a nullable
  reference, and `Result`, which stands for a call that may throw.
- `Packaging` (packaging.dfy) holds the shared vocabulary:
  - the part kinds and the reference kinds;
  - the relationship-type constant of each child class;
  - `PartConstraintRule` and `PartConstraintCollection`;
  - the errors and the two accessor shapes.
- `ExtendedChart` (extended_chart_part.dfy) and `SlideMaster`
  (slide_master_part.dfy) each model one generated class. The static fields
  are a class (`…Statics`) with a nullable field per table and a getter
  method. The factory and the accessors are functions.
- `PartRelationships` (relationships.dfy) holds the relationship-type
  constant of every class and the facts that involve both classes.

A C# `null` argument is `None`. An exception is `Failure(…)`, and
`new K()` is `Success(K)`.

## Model

| member | source | states |
|---|---|---|
| SlideMaster.ContentTypeIsFixed | src/DocumentFormat.OpenXml/GeneratedCode/Packaging/SlideMasterPart.g.cs:16-34 | a slide master's content type is the slideMaster content type; it is fixed; its relationship type, target name and target path are the class constants (IsContentTypeFixed, TargetName and TargetPath are the expression-bodied properties further down the file) |
| SlideMaster.ChartExKeyIsExtendedChartConstant | src/DocumentFormat.OpenXml/GeneratedCode/Packaging/SlideMasterPart.g.cs:145-146 | the slide master's table spells its chartEx key as a string of its own; that string is the relationship-type constant ExtendedChartPart declares for itself (ExtendedChartPart.g.cs line 17) |
| SlideMaster.SlideMasterPartStatics.constructor | src/DocumentFormat.OpenXml/GeneratedCode/Packaging/SlideMasterPart.g.cs:18-19 | both static tables start out unset |
| SlideMaster.SlideMasterPartStatics.DataPartReferenceConstraints | src/DocumentFormat.OpenXml/GeneratedCode/Packaging/SlideMasterPart.g.cs:42-67 | the first call builds the audio/video/media table and stores it; every later call returns the stored collection, the same object and unchanged; only that field changes |
| SlideMaster.SlideMasterPartStatics.PartConstraints | src/DocumentFormat.OpenXml/GeneratedCode/Packaging/SlideMasterPart.g.cs:128-213 | the first call builds the 18-entry part table and stores it; every later call returns the same object; only that field changes |
| SlideMaster.CreatePartCore | src/DocumentFormat.OpenXml/GeneratedCode/Packaging/SlideMasterPart.g.cs:539-588 | the argument-null error happens exactly for a null argument; every part it creates is a class that has a public accessor on the slide master |
| SlideMaster.CaseLabelsDistinct | src/DocumentFormat.OpenXml/GeneratedCode/Packaging/SlideMasterPart.g.cs:547-585 | the switch has 18 case labels, none repeated |
| SlideMaster.CreatePartCoreCreatesRuleKind | src/DocumentFormat.OpenXml/GeneratedCode/Packaging/SlideMasterPart.g.cs:547-585 | for every key of the part table, the factory creates exactly the class that key's rule names (diagramDrawing gives DiagramPersistLayoutPart, theme gives ThemePart, and so on) |
| SlideMaster.CreatePartCoreRejectsUnlisted | src/DocumentFormat.OpenXml/GeneratedCode/Packaging/SlideMasterPart.g.cs:547-587 | every string that is not a key of the part table fails with the out-of-range error |
| SlideMaster.CreatePartCoreMatchesPartConstraints | src/DocumentFormat.OpenXml/GeneratedCode/Packaging/SlideMasterPart.g.cs:547-587 | the factory succeeds if and only if its argument is a key of the part table, with the rule's class; otherwise it fails out of range |
| SlideMaster.PartConstraintsHaveEighteenKeys | src/DocumentFormat.OpenXml/GeneratedCode/Packaging/SlideMasterPart.g.cs:134-208 | the keys of the part table are exactly the switch's case labels, and there are 18 of them |
| SlideMaster.SingletonRules | src/DocumentFormat.OpenXml/GeneratedCode/Packaging/SlideMasterPart.g.cs:136-207 | theme is the only relationship type that may not repeat |
| SlideMaster.NoMandatoryChildren | src/DocumentFormat.OpenXml/GeneratedCode/Packaging/SlideMasterPart.g.cs:134-208 | no rule of the part table makes a child mandatory |
| SlideMaster.AccessorFollowsRule | src/DocumentFormat.OpenXml/GeneratedCode/Packaging/SlideMasterPart.g.cs:31-247 | the class of each table key has an accessor; it is GetSubPartOfType for the non-repeatable theme and GetPartsOfType for the others |
| SlideMaster.AccessorHasRule | src/DocumentFormat.OpenXml/GeneratedCode/Packaging/SlideMasterPart.g.cs:31-247 | every class that has an accessor is the class of some rule of the part table |
| SlideMaster.AccessorsMatchPartConstraints | src/DocumentFormat.OpenXml/GeneratedCode/Packaging/SlideMasterPart.g.cs:31-247 | the accessors cover exactly the table's classes, each with the shape its repeat flag calls for (singular ThemePart, plural ChartParts, SlideLayoutParts, …) |
| SlideMaster.DataPartReferenceRules | src/DocumentFormat.OpenXml/GeneratedCode/Packaging/SlideMasterPart.g.cs:48-62 | the media-reference table holds exactly the audio, video and media keys; each key is optional, repeatable and paired with its own reference class |
| SlideMaster.DataPartReferencesAreNotParts | src/DocumentFormat.OpenXml/GeneratedCode/Packaging/SlideMasterPart.g.cs:547-587 | no media-reference key is a key of the part table, and the factory rejects each of them as out of range |
| ExtendedChart.ContentTypeIsFixed | src/DocumentFormat.OpenXml/GeneratedCode/Packaging/ExtendedChartPart.g.cs:16-56 | an extended chart's content type is the chartex content type; it is fixed; its relationship type, target name and target path are the class constants (IsContentTypeFixed, TargetName and TargetPath are the expression-bodied properties further down the file) |
| ExtendedChart.ExtendedChartPartStatics.constructor | src/DocumentFormat.OpenXml/GeneratedCode/Packaging/ExtendedChartPart.g.cs:18 | the static part table starts out unset |
| ExtendedChart.ExtendedChartPartStatics.PartConstraints | src/DocumentFormat.OpenXml/GeneratedCode/Packaging/ExtendedChartPart.g.cs:59-96 | the first call builds the six-entry table and stores it; every later call returns the same object; only that field changes |
| ExtendedChart.CreatePartCore | src/DocumentFormat.OpenXml/GeneratedCode/Packaging/ExtendedChartPart.g.cs:176-202 | the argument-null error happens exactly for a null argument; every part it creates is a class that has a public accessor on the extended chart |
| ExtendedChart.CaseLabelsDistinct | src/DocumentFormat.OpenXml/GeneratedCode/Packaging/ExtendedChartPart.g.cs:185-199 | the switch's six case labels are pairwise distinct |
| ExtendedChart.CreatePartCoreMatchesPartConstraints | src/DocumentFormat.OpenXml/GeneratedCode/Packaging/ExtendedChartPart.g.cs:185-201 | the factory succeeds if and only if its argument is one of the six table keys, and it creates the rule's class; any other string fails out of range |
| ExtendedChart.PartConstraintsHaveSixKeys | src/DocumentFormat.OpenXml/GeneratedCode/Packaging/ExtendedChartPart.g.cs:65-91 | the table's keys are exactly the six case labels (chartUserShapes, package, image, themeOverride, chartStyle, chartColorStyle) |
| ExtendedChart.SingletonRules | src/DocumentFormat.OpenXml/GeneratedCode/Packaging/ExtendedChartPart.g.cs:67-90 | exactly chartUserShapes, package and themeOverride may not repeat |
| ExtendedChart.NoMandatoryChildren | src/DocumentFormat.OpenXml/GeneratedCode/Packaging/ExtendedChartPart.g.cs:69-89 | no child class is mandatory for an extended chart |
| ExtendedChart.AccessorsMatchPartConstraints | src/DocumentFormat.OpenXml/GeneratedCode/Packaging/ExtendedChartPart.g.cs:30-110 | the accessors cover exactly the table's classes; ChartDrawingPart, EmbeddedPackagePart and ThemeOverridePart are singular, the other three are plural, each as its repeat flag calls for |
| PartRelationships.SlideMasterCreatesClassOfConstant | src/DocumentFormat.OpenXml/GeneratedCode/Packaging/SlideMasterPart.g.cs:547-585 | whatever the slide master's factory creates is the class whose relationship-type constant was the argument |
| PartRelationships.ExtendedChartCreatesClassOfConstant | src/DocumentFormat.OpenXml/GeneratedCode/Packaging/ExtendedChartPart.g.cs:185-199 | whatever the extended chart's factory creates is the class whose relationship-type constant was the argument |
| PartRelationships.SlideMasterKeysAreTargetConstants | src/DocumentFormat.OpenXml/GeneratedCode/Packaging/SlideMasterPart.g.cs:134-208 | every key of the slide master's table is the relationship-type constant of the class its rule names, and the factory creates that class |
| PartRelationships.ExtendedChartKeysAreTargetConstants | src/DocumentFormat.OpenXml/GeneratedCode/Packaging/ExtendedChartPart.g.cs:65-91 | every key of the extended chart's table is the relationship-type constant of the class its rule names, and the factory creates that class |
| PartRelationships.SlideMasterOwnsExtendedCharts | src/DocumentFormat.OpenXml/GeneratedCode/Packaging/SlideMasterPart.g.cs:145-146 | ExtendedChartPart's own relationship type is the chartEx key of the slide master's table; its rule is optional and repeatable; the slide master's factory creates an ExtendedChartPart for it |
| PartRelationships.ConstraintsArePerOwner | src/DocumentFormat.OpenXml/GeneratedCode/Packaging/ExtendedChartPart.g.cs:72-73 | package is a singleton under an extended chart but repeatable under a slide master; where the two tables share a key they name the same class |

## Left out

- The relationship-type constants of the child classes (`ChartPart.RelationshipTypeConstant` and so on) are declared in files that are not part of this model. Each one is taken to be the key its class is paired with in the constraint tables; only the slide master's and the extended chart's own constants are read from their files, and the slide master's chartEx key is checked against the extended chart's constant.
- `ThrowIfObjectDisposed`, which both factories call first: the base class is not part of this model, so disposal is not modelled.
- `InitPart`, `GetPartsOfType`, `GetSubPartOfType` and `AddDataPartReferenceRelationship` are not modelled. Their bodies are in the base class, which is not part of this model. An accessor is modelled only by its shape: singular or plural.
- The `Add…Part` and `Add…ReferenceRelationship` methods and their content-type overloads are not modelled. They rely on the per-class content-type mappings and on the package's global extension registry, and neither is part of this model.
- `CreatePartCore` returns a new object in the source. The model returns the class of that object, so object identity and part initialisation are not captured.
- The static fields are modelled as one `…Statics` object. Unsynchronised concurrent first reads, which can build a table twice, are out of scope.
- The `OfficeAvailability` and `ContentType` attributes, archive I/O and XML payload parsing are not modelled.
