/**
 * The lineage records: the two edge-type enumerations and the three table rows
 * (Dataset, ModelDatasetLink, ModelDependency) with their field defaults.
 *
 * Every record field is `nameonly`, as the source's records are built from
 * keyword arguments; a field with a default in the source has the same default
 * here. `created_at` has a default factory (the wall clock) in the source; here
 * it is a required Timestamp supplied by whoever builds the row.
 */
module LineageModels {
  import opened Wrappers

  /** A tick of an abstract, monotonically increasing clock. */
  type Timestamp = nat

  /** The free-form JSON object held in `schema_info`, abstracted to string pairs. */
  type SchemaInfo = map<string, string>

  // ---------------------------------------------------------------------------
  // DatasetType: the role a dataset plays for a model
  // ---------------------------------------------------------------------------

  datatype DatasetType = Training | Validation | Test | Inference

  /** The enum member's string value (its wire form). */
  function DatasetTypeValue(t: DatasetType): string
  {
    match t
    case Training => "training"
    case Validation => "validation"
    case Test => "test"
    case Inference => "inference"
  }

  /** Lookup of a member by value, as `DatasetType(s)` does; None where Python raises ValueError. */
  function ParseDatasetType(s: string): (r: Option<DatasetType>)
    ensures r.Some? ==> DatasetTypeValue(r.value) == s
    ensures r.None? <==> forall t: DatasetType :: DatasetTypeValue(t) != s
  {
    if s == "training" then Some(Training)
    else if s == "validation" then Some(Validation)
    else if s == "test" then Some(Test)
    else if s == "inference" then Some(Inference)
    else None
  }

  /** The members in declaration order. */
  const DatasetTypes: seq<DatasetType> := [Training, Validation, Test, Inference]

  /** The enumeration is closed: exactly four members, with pairwise distinct values. */
  lemma DatasetTypeMembers()
    ensures forall t: DatasetType :: t in DatasetTypes
    ensures |DatasetTypes| == 4
    ensures forall i, j :: 0 <= i < j < |DatasetTypes| ==>
              DatasetTypeValue(DatasetTypes[i]) != DatasetTypeValue(DatasetTypes[j])
  {
    forall t: DatasetType ensures t in DatasetTypes {
      match t
      case Training => assert DatasetTypes[0] == t;
      case Validation => assert DatasetTypes[1] == t;
      case Test => assert DatasetTypes[2] == t;
      case Inference => assert DatasetTypes[3] == t;
    }
  }

  /** Looking a member up by its own value gives the member back. */
  lemma DatasetTypeRoundTrip(t: DatasetType)
    ensures ParseDatasetType(DatasetTypeValue(t)) == Some(t)
  {
  }

  // ---------------------------------------------------------------------------
  // DependencyType: the kind of model-to-model relationship
  // ---------------------------------------------------------------------------

  datatype DependencyType = FineTunedFrom | EnsembleComponentOf | DistilledFrom | DerivedFrom

  /** The enum member's string value (its wire form). */
  function DependencyTypeValue(t: DependencyType): string
  {
    match t
    case FineTunedFrom => "fine_tuned_from"
    case EnsembleComponentOf => "ensemble_component_of"
    case DistilledFrom => "distilled_from"
    case DerivedFrom => "derived_from"
  }

  /** Lookup of a member by value, as `DependencyType(s)` does; None where Python raises ValueError. */
  function ParseDependencyType(s: string): (r: Option<DependencyType>)
    ensures r.Some? ==> DependencyTypeValue(r.value) == s
    ensures r.None? <==> forall t: DependencyType :: DependencyTypeValue(t) != s
  {
    if s == "fine_tuned_from" then Some(FineTunedFrom)
    else if s == "ensemble_component_of" then Some(EnsembleComponentOf)
    else if s == "distilled_from" then Some(DistilledFrom)
    else if s == "derived_from" then Some(DerivedFrom)
    else None
  }

  /** The members in declaration order. */
  const DependencyTypes: seq<DependencyType> := [FineTunedFrom, EnsembleComponentOf, DistilledFrom, DerivedFrom]

  /** The enumeration is closed: exactly four members, with pairwise distinct values. */
  lemma DependencyTypeMembers()
    ensures forall t: DependencyType :: t in DependencyTypes
    ensures |DependencyTypes| == 4
    ensures forall i, j :: 0 <= i < j < |DependencyTypes| ==>
              DependencyTypeValue(DependencyTypes[i]) != DependencyTypeValue(DependencyTypes[j])
  {
    forall t: DependencyType ensures t in DependencyTypes {
      match t
      case FineTunedFrom => assert DependencyTypes[0] == t;
      case EnsembleComponentOf => assert DependencyTypes[1] == t;
      case DistilledFrom => assert DependencyTypes[2] == t;
      case DerivedFrom => assert DependencyTypes[3] == t;
    }
  }

  /** Looking a member up by its own value gives the member back. */
  lemma DependencyTypeRoundTrip(t: DependencyType)
    ensures ParseDependencyType(DependencyTypeValue(t)) == Some(t)
  {
  }

  // ---------------------------------------------------------------------------
  // Table rows
  // ---------------------------------------------------------------------------

  /**
   * A data source used by models. `id` stays None until the store assigns it.
   * `dataSensitivity` and `dataClassification` are plain strings: nothing here
   * restricts them to a vocabulary.
   */
  datatype Dataset = Dataset(
    nameonly id: Option<int> := None,
    nameonly name: string,
    nameonly description: Option<string> := None,
    nameonly sourceSystem: Option<string> := None,
    nameonly location: Option<string> := None,
    nameonly dataSensitivity: string := "internal",
    nameonly dataClassification: string := "internal",
    nameonly organizationId: Option<int> := None,
    nameonly recordCount: Option<int> := None,
    nameonly schemaInfo: Option<SchemaInfo> := None,
    nameonly createdAt: Timestamp,
    nameonly updatedAt: Option<Timestamp> := None)

  /** A use of a dataset by a model (or one of its versions). */
  datatype ModelDatasetLink = ModelDatasetLink(
    nameonly id: Option<int> := None,
    nameonly modelId: int,
    nameonly modelVersionId: Option<int> := None,
    nameonly datasetId: int,
    nameonly datasetType: DatasetType := Training,
    nameonly notes: Option<string> := None,
    nameonly createdAt: Timestamp)

  /** A directed edge: the child model depends on the parent model. */
  datatype ModelDependency = ModelDependency(
    nameonly id: Option<int> := None,
    nameonly parentModelId: int,
    nameonly parentVersionId: Option<int> := None,
    nameonly childModelId: int,
    nameonly childVersionId: Option<int> := None,
    nameonly dependencyType: DependencyType := DerivedFrom,
    nameonly notes: Option<string> := None,
    nameonly createdAt: Timestamp)

  /**
   * A Dataset built from a name alone has the governance tags "internal" and
   * every optional field unset; supplied governance tags are stored as given.
   */
  lemma DatasetDefaults(name: string, sensitivity: string, classification: string, now: Timestamp)
    ensures var d := Dataset(name := name, createdAt := now);
      && d.id == None && d.name == name && d.createdAt == now
      && d.dataSensitivity == "internal" && d.dataClassification == "internal"
      && d.description == None && d.sourceSystem == None && d.location == None
      && d.organizationId == None && d.recordCount == None
      && d.schemaInfo == None && d.updatedAt == None
    ensures var d := Dataset(name := name, dataSensitivity := sensitivity,
                             dataClassification := classification, createdAt := now);
      d.dataSensitivity == sensitivity && d.dataClassification == classification
  {
  }

  /** A link keeps its supplied references; its type defaults to training. */
  lemma LinkDefaults(modelId: int, datasetId: int, t: DatasetType, now: Timestamp)
    ensures var l := ModelDatasetLink(modelId := modelId, datasetId := datasetId, createdAt := now);
      && l.id == None && l.modelId == modelId && l.datasetId == datasetId
      && l.datasetType == Training && l.modelVersionId == None && l.notes == None
    ensures var l := ModelDatasetLink(modelId := modelId, datasetId := datasetId, datasetType := t, createdAt := now);
      l.modelId == modelId && l.datasetId == datasetId && l.datasetType == t
  {
  }

  /** A dependency keeps its supplied endpoints; its type defaults to derived_from. */
  lemma DependencyDefaults(parent: int, child: int, t: DependencyType, now: Timestamp)
    ensures var e := ModelDependency(parentModelId := parent, childModelId := child, createdAt := now);
      && e.id == None && e.parentModelId == parent && e.childModelId == child
      && e.dependencyType == DerivedFrom
      && e.parentVersionId == None && e.childVersionId == None && e.notes == None
    ensures var e := ModelDependency(parentModelId := parent, childModelId := child, dependencyType := t, createdAt := now);
      e.parentModelId == parent && e.childModelId == child && e.dependencyType == t
  {
  }
}
