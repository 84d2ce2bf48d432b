/**
 * The lineage store behind the lineage routes: three append-only tables
 * (datasets, model-dataset links, model dependencies) beside the set of model
 * ids that exist in the externally owned model registry.
 *
 * Each POST route becomes a method that validates its references in the
 * route's order and appends exactly one row on success; each GET route becomes
 * a function over the tables. An HTTP 404 or 422 becomes a Failure value.
 */
module LineageRoutes {
  import opened Wrappers
  import opened LineageModels
  import opened Tables

  // ---------------------------------------------------------------------------
  // Errors
  // ---------------------------------------------------------------------------

  /** Which reference failed to resolve. */
  datatype Referent = ModelRef | DatasetRef | ParentModelRef

  /** Why a dataset payload was rejected. */
  datatype Violation = NameTooShort | NameTooLong

  /** NotFound is the routes' 404; ValidationError is the payload's 422. */
  datatype Error = NotFound(missing: Referent) | ValidationError(violation: Violation)

  // ---------------------------------------------------------------------------
  // Request payloads
  // ---------------------------------------------------------------------------

  /** Length bounds on a dataset name. */
  const NameMinLength := 1
  const NameMaxLength := 255

  /** The body of POST /datasets/. */
  datatype DatasetCreate = DatasetCreate(
    nameonly name: string,
    nameonly description: Option<string> := None,
    nameonly sourceSystem: Option<string> := None,
    nameonly location: Option<string> := None,
    nameonly dataSensitivity: string := "internal",
    nameonly dataClassification: string := "internal",
    nameonly organizationId: Option<int> := None,
    nameonly recordCount: Option<int> := None)

  /** The body of POST /models/{model_id}/datasets/. */
  datatype DatasetLinkCreate = DatasetLinkCreate(
    nameonly datasetId: int,
    nameonly datasetType: DatasetType := Training,
    nameonly modelVersionId: Option<int> := None,
    nameonly notes: Option<string> := None)

  /** The body of POST /models/{model_id}/dependencies/. */
  datatype DependencyCreate = DependencyCreate(
    nameonly parentModelId: int,
    nameonly parentVersionId: Option<int> := None,
    nameonly dependencyType: DependencyType := DerivedFrom,
    nameonly notes: Option<string> := None)

  /** The response of GET /models/{model_id}/lineage. */
  datatype LineageResponse = LineageResponse(
    datasets: seq<ModelDatasetLink>,
    parentModels: seq<ModelDependency>,
    childModels: seq<ModelDependency>)

  /** The field constraints on a dataset payload: only the name is constrained. */
  function ValidateDatasetCreate(payload: DatasetCreate): (r: Option<Violation>)
    ensures r.None? <==> NameMinLength <= |payload.name| <= NameMaxLength
    ensures r == Some(NameTooShort) <==> |payload.name| < NameMinLength
    ensures r == Some(NameTooLong) <==> |payload.name| > NameMaxLength
  {
    if |payload.name| < NameMinLength then Some(NameTooShort)
    else if |payload.name| > NameMaxLength then Some(NameTooLong)
    else None
  }

  // ---------------------------------------------------------------------------
  // Query filters
  // ---------------------------------------------------------------------------

  /** Python truthiness of an optional integer query parameter: None and 0 are false. */
  predicate IntFilterGiven(v: Option<int>)
  {
    v.Some? && v.value != 0
  }

  /** Python truthiness of an optional string query parameter: None and "" are false. */
  predicate StringFilterGiven(v: Option<string>)
  {
    v.Some? && v.value != ""
  }

  /** A dataset passes every filter that is given; a filter that is not given admits everything. */
  predicate PassesFilters(d: Dataset, organizationId: Option<int>, dataSensitivity: Option<string>)
  {
    && (IntFilterGiven(organizationId) ==> d.organizationId == organizationId)
    && (StringFilterGiven(dataSensitivity) ==> d.dataSensitivity == dataSensitivity.value)
  }

  /** The WHERE clause of list_datasets. */
  function DatasetFilter(organizationId: Option<int>, dataSensitivity: Option<string>): Dataset -> bool
  {
    (d: Dataset) => PassesFilters(d, organizationId, dataSensitivity)
  }

  /** Links that belong to model `m`. */
  function LinkOfModel(m: int): ModelDatasetLink -> bool
  {
    (l: ModelDatasetLink) => l.modelId == m
  }

  /** Edges whose child is model `m`: what `m` depends on. */
  function EdgeIntoChild(m: int): ModelDependency -> bool
  {
    (e: ModelDependency) => e.childModelId == m
  }

  /** Edges whose parent is model `m`: what depends on `m`. */
  function EdgeFromParent(m: int): ModelDependency -> bool
  {
    (e: ModelDependency) => e.parentModelId == m
  }

  /** Edges from parent `a` to child `b`. */
  function EdgeBetween(a: int, b: int): ModelDependency -> bool
  {
    (e: ModelDependency) => e.parentModelId == a && e.childModelId == b
  }

  // ---------------------------------------------------------------------------
  // Row identity
  // ---------------------------------------------------------------------------

  /** One column of a table. */
  function Column<T, U>(rows: seq<T>, f: T -> U): (c: seq<U>)
    ensures |c| == |rows|
    ensures forall i :: 0 <= i < |rows| ==> c[i] == f(rows[i])
  {
    seq(|rows|, i requires 0 <= i < |rows| => f(rows[i]))
  }

  /** Every row has an assigned id in [1, bound), and ids grow with insertion order. */
  ghost predicate IdsAssigned(ids: seq<Option<int>>, bound: int)
  {
    && (forall i :: 0 <= i < |ids| ==> ids[i].Some? && 1 <= ids[i].value < bound)
    && (forall i, j :: 0 <= i < j < |ids| ==> ids[i].value < ids[j].value)
  }

  /** Appending a row whose id is the current bound keeps the ids assigned, under the next bound. */
  lemma IdsAssignedAppend(ids: seq<Option<int>>, bound: int)
    requires IdsAssigned(ids, bound) && bound >= 1
    ensures IdsAssigned(ids + [Some(bound)], bound + 1)
  {
  }

  /** Appending one row to a table appends its value to every column. */
  lemma ColumnAppend<T, U>(rows: seq<T>, x: T, f: T -> U)
    ensures Column(rows + [x], f) == Column(rows, f) + [f(x)]
  {
  }

  // ---------------------------------------------------------------------------
  // The store
  // ---------------------------------------------------------------------------

  class LineageStore {
    /** The Dataset table, in insertion order. */
    var datasets: seq<Dataset>
    /** The ModelDatasetLink table, in insertion order. */
    var links: seq<ModelDatasetLink>
    /** The ModelDependency table, in insertion order. */
    var dependencies: seq<ModelDependency>
    /** The ids present in the model registry, which this store only reads. */
    const models: set<int>
    /** The next id to assign and the current time; it only grows. */
    var clock: nat

    /**
     * The store's invariant: every row has an id below the clock, ids grow with
     * insertion order (so none repeats within a table), every dataset was created
     * before the current time, and every reference a link or an edge holds
     * resolves.
     */
    ghost predicate Valid()
      reads this
    {
      && clock >= 1
      && IdsAssigned(Column(datasets, (d: Dataset) => d.id), clock)
      && IdsAssigned(Column(links, (l: ModelDatasetLink) => l.id), clock)
      && IdsAssigned(Column(dependencies, (e: ModelDependency) => e.id), clock)
      && (forall d :: d in datasets ==> d.createdAt < clock)
      && (forall l :: l in links ==> l.modelId in models && FindDataset(datasets, l.datasetId).Some?)
      && (forall e :: e in dependencies ==> e.parentModelId in models && e.childModelId in models)
    }

    /** An empty store beside a registry holding `registry`. */
    constructor (registry: set<int>)
      ensures Valid()
      ensures datasets == [] && links == [] && dependencies == []
      ensures models == registry
    {
      datasets, links, dependencies := [], [], [];
      models := registry;
      clock := 1;
    }

    // --- GET routes ----------------------------------------------------------

    /** GET /datasets/{id}: the stored dataset with that id, else dataset-not-found. */
    function GetDataset(datasetId: int): (r: Result<Dataset, Error>)
      reads this
      ensures r.Success? ==> r.value in datasets && r.value.id == Some(datasetId)
      ensures r.Failure? <==> forall d :: d in datasets ==> d.id != Some(datasetId)
      ensures r.Failure? ==> r.error == NotFound(DatasetRef)
    {
      match FindDataset(datasets, datasetId)
      case Some(d) => Success(d)
      case None => Failure(NotFound(DatasetRef))
    }

    /**
     * GET /datasets/: the stored datasets that pass the filters, each as often
     * as it is stored, newest first. A filter that is None, 0 or "" is not applied.
     */
    function ListDatasets(organizationId: Option<int> := None, dataSensitivity: Option<string> := None): (r: seq<Dataset>)
      reads this
      ensures forall d :: d in r <==> d in datasets && PassesFilters(d, organizationId, dataSensitivity)
      ensures forall d :: multiset(r)[d] ==
                if PassesFilters(d, organizationId, dataSensitivity) then multiset(datasets)[d] else 0
      ensures NewestFirst(r)
    {
      var selected := Select(datasets, DatasetFilter(organizationId, dataSensitivity));
      var r := SortNewestFirst(selected);
      assert forall d :: d in r <==> d in selected by {
        forall d ensures d in r <==> d in selected {
          assert d in r <==> d in multiset(r);
        }
      }
      r
    }

    /** GET /models/{model_id}/datasets/: every link of `modelId`, whether or not that model exists. */
    function GetModelDatasets(modelId: int): (r: seq<ModelDatasetLink>)
      reads this
      ensures forall l :: l in r <==> l in links && l.modelId == modelId
      ensures forall l :: multiset(r)[l] == if l.modelId == modelId then multiset(links)[l] else 0
    {
      Select(links, LinkOfModel(modelId))
    }

    /**
     * GET /models/{model_id}/lineage: model-not-found unless the model exists;
     * otherwise its links, the edges into it (its parents) and the edges out of
     * it (its children), each in stored order.
     */
    function GetModelLineage(modelId: int): (r: Result<LineageResponse, Error>)
      reads this
      ensures r.Failure? <==> modelId !in models
      ensures r.Failure? ==> r.error == NotFound(ModelRef)
      ensures r.Success? ==> r.value.datasets == GetModelDatasets(modelId)
      ensures r.Success? ==> forall e :: e in r.value.parentModels <==> e in dependencies && e.childModelId == modelId
      ensures r.Success? ==> forall e :: e in r.value.childModels <==> e in dependencies && e.parentModelId == modelId
      ensures r.Success? ==> r.value.parentModels == Select(dependencies, EdgeIntoChild(modelId))
      ensures r.Success? ==> r.value.childModels == Select(dependencies, EdgeFromParent(modelId))
    {
      if modelId !in models then Failure(NotFound(ModelRef))
      else
        Success(LineageResponse(
          datasets := GetModelDatasets(modelId),
          parentModels := Select(dependencies, EdgeIntoChild(modelId)),
          childModels := Select(dependencies, EdgeFromParent(modelId))))
    }

    // --- POST routes ---------------------------------------------------------

    /**
     * POST /datasets/: rejects a name outside 1..255 characters and changes
     * nothing; otherwise appends one dataset carrying the payload's fields, a
     * fresh id and the current time, and leaves the other tables alone.
     */
    method CreateDataset(payload: DatasetCreate) returns (r: Result<Dataset, Error>)
      requires Valid()
      modifies this
      ensures Valid()
      ensures links == old(links) && dependencies == old(dependencies)
      ensures r.Success? <==> NameMinLength <= |payload.name| <= NameMaxLength
      ensures r.Failure? ==> r.error == ValidationError(ValidateDatasetCreate(payload).value)
      ensures r.Failure? ==> datasets == old(datasets) && clock == old(clock)
      ensures r.Success? ==>
        && datasets == old(datasets) + [r.value]
        && r.value == Dataset(
             id := Some(old(clock)),
             name := payload.name,
             description := payload.description,
             sourceSystem := payload.sourceSystem,
             location := payload.location,
             dataSensitivity := payload.dataSensitivity,
             dataClassification := payload.dataClassification,
             organizationId := payload.organizationId,
             recordCount := payload.recordCount,
             schemaInfo := None,
             createdAt := old(clock),
             updatedAt := None)
        && clock == old(clock) + 1
      ensures r.Success? ==> forall d :: d in old(datasets) ==> d.id != r.value.id && d.createdAt < r.value.createdAt
      ensures r.Success? ==> GetDataset(old(clock)) == Success(r.value)
    {
      var violation := ValidateDatasetCreate(payload);
      if violation.Some? {
        return Failure(ValidationError(violation.value));
      }
      var dataset := Dataset(
        id := Some(clock),
        name := payload.name,
        description := payload.description,
        sourceSystem := payload.sourceSystem,
        location := payload.location,
        dataSensitivity := payload.dataSensitivity,
        dataClassification := payload.dataClassification,
        organizationId := payload.organizationId,
        recordCount := payload.recordCount,
        createdAt := clock);
      ghost var before := datasets;
      assert forall d :: d in before ==> d.id != dataset.id by {
        forall d | d in before ensures d.id != dataset.id {
          var i :| 0 <= i < |before| && before[i] == d;
          assert Column(before, (d: Dataset) => d.id)[i] == d.id;
        }
      }
      ColumnAppend(datasets, dataset, (d: Dataset) => d.id);
      IdsAssignedAppend(Column(datasets, (d: Dataset) => d.id), clock);
      datasets := datasets + [dataset];
      forall l | l in links ensures FindDataset(datasets, l.datasetId).Some? {
        var found := FindDataset(before, l.datasetId).value;
        assert found in datasets;
      }
      clock := clock + 1;
      r := Success(dataset);
    }

    /**
     * POST /models/{model_id}/datasets/: model-not-found unless the model exists,
     * then dataset-not-found unless the dataset exists; on success appends one
     * link built from the path id and the payload. Repeating a pair is allowed.
     */
    method LinkDatasetToModel(modelId: int, payload: DatasetLinkCreate) returns (r: Result<ModelDatasetLink, Error>)
      requires Valid()
      modifies this
      ensures Valid()
      ensures datasets == old(datasets) && dependencies == old(dependencies)
      ensures modelId !in models ==> r == Failure(NotFound(ModelRef))
      ensures modelId in models && GetDataset(payload.datasetId).Failure? ==> r == Failure(NotFound(DatasetRef))
      ensures r.Success? <==> modelId in models && GetDataset(payload.datasetId).Success?
      ensures r.Failure? ==> links == old(links) && clock == old(clock)
      ensures r.Success? ==>
        && links == old(links) + [r.value]
        && r.value == ModelDatasetLink(
             id := Some(old(clock)),
             modelId := modelId,
             modelVersionId := payload.modelVersionId,
             datasetId := payload.datasetId,
             datasetType := payload.datasetType,
             notes := payload.notes,
             createdAt := old(clock))
        && clock == old(clock) + 1
      ensures r.Success? ==> forall l :: l in old(links) ==> l.id != r.value.id
      ensures r.Success? ==> r.value in GetModelDatasets(modelId)
    {
      if modelId !in models {
        return Failure(NotFound(ModelRef));
      }
      var dataset := GetDataset(payload.datasetId);
      if dataset.Failure? {
        return Failure(NotFound(DatasetRef));
      }
      var link := ModelDatasetLink(
        id := Some(clock),
        modelId := modelId,
        modelVersionId := payload.modelVersionId,
        datasetId := payload.datasetId,
        datasetType := payload.datasetType,
        notes := payload.notes,
        createdAt := clock);
      ghost var before := links;
      assert forall l :: l in before ==> l.id != link.id by {
        forall l | l in before ensures l.id != link.id {
          var i :| 0 <= i < |before| && before[i] == l;
          assert Column(before, (l: ModelDatasetLink) => l.id)[i] == l.id;
        }
      }
      ColumnAppend(links, link, (l: ModelDatasetLink) => l.id);
      IdsAssignedAppend(Column(links, (l: ModelDatasetLink) => l.id), clock);
      links := links + [link];
      clock := clock + 1;
      r := Success(link);
    }

    /**
     * POST /models/{model_id}/dependencies/: model-not-found unless the model
     * exists, then parent-not-found unless the parent exists; on success appends
     * one edge from the parent to this model. A model may name itself as parent.
     */
    method CreateDependency(modelId: int, payload: DependencyCreate) returns (r: Result<ModelDependency, Error>)
      requires Valid()
      modifies this
      ensures Valid()
      ensures datasets == old(datasets) && links == old(links)
      ensures modelId !in models ==> r == Failure(NotFound(ModelRef))
      ensures modelId in models && payload.parentModelId !in models ==> r == Failure(NotFound(ParentModelRef))
      ensures r.Success? <==> modelId in models && payload.parentModelId in models
      ensures r.Failure? ==> dependencies == old(dependencies) && clock == old(clock)
      ensures r.Success? ==>
        && dependencies == old(dependencies) + [r.value]
        && r.value == ModelDependency(
             id := Some(old(clock)),
             parentModelId := payload.parentModelId,
             parentVersionId := payload.parentVersionId,
             childModelId := modelId,
             childVersionId := None,
             dependencyType := payload.dependencyType,
             notes := payload.notes,
             createdAt := old(clock))
        && clock == old(clock) + 1
      ensures r.Success? ==> forall e :: e in old(dependencies) ==> e.id != r.value.id
    {
      if modelId !in models {
        return Failure(NotFound(ModelRef));
      }
      if payload.parentModelId !in models {
        return Failure(NotFound(ParentModelRef));
      }
      var edge := ModelDependency(
        id := Some(clock),
        parentModelId := payload.parentModelId,
        parentVersionId := payload.parentVersionId,
        childModelId := modelId,
        dependencyType := payload.dependencyType,
        notes := payload.notes,
        createdAt := clock);
      ghost var before := dependencies;
      assert forall e :: e in before ==> e.id != edge.id by {
        forall e | e in before ensures e.id != edge.id {
          var i :| 0 <= i < |before| && before[i] == e;
          assert Column(before, (e: ModelDependency) => e.id)[i] == e.id;
        }
      }
      ColumnAppend(dependencies, edge, (e: ModelDependency) => e.id);
      IdsAssignedAppend(Column(dependencies, (e: ModelDependency) => e.id), clock);
      dependencies := dependencies + [edge];
      clock := clock + 1;
      r := Success(edge);
    }
  }

  /** In a valid store a dataset id names one row: two stored datasets with the same id are the same row. */
  lemma DatasetIdIdentifiesRow(store: LineageStore, d1: Dataset, d2: Dataset)
    requires store.Valid()
    requires d1 in store.datasets && d2 in store.datasets && d1.id == d2.id
    ensures d1 == d2
  {
    var ids := Column(store.datasets, (d: Dataset) => d.id);
    var i :| 0 <= i < |store.datasets| && store.datasets[i] == d1;
    var j :| 0 <= j < |store.datasets| && store.datasets[j] == d2;
    assert ids[i] == d1.id && ids[j] == d2.id;
  }
}
