/**
 * Properties of the lineage store that relate several routes: the parent and
 * child views of the lineage query are two slices of one edge set, the link
 * listing of an unregistered model is empty, falsy list filters are no
 * filters, and two checks the routes do not make (a repeated link, a
 * self-dependency) leave those requests accepted.
 */
module LineageProperties {
  import opened Wrappers
  import opened LineageModels
  import opened Tables
  import opened LineageRoutes

  /** Every edge shows up among the parents of its child and among the children of its parent. */
  lemma EdgeInBothViews(store: LineageStore, e: ModelDependency)
    requires store.Valid()
    requires e in store.dependencies
    ensures store.GetModelLineage(e.childModelId).Success?
    ensures e in store.GetModelLineage(e.childModelId).value.parentModels
    ensures store.GetModelLineage(e.parentModelId).Success?
    ensures e in store.GetModelLineage(e.parentModelId).value.childModels
  {
  }

  /**
   * The edges from `a` among the parents of `b` are, in the same order, the
   * edges into `b` among the children of `a`: both are the a-to-b edges.
   */
  lemma {:induction false} ParentAndChildViewsAgree(store: LineageStore, a: int, b: int)
    requires a in store.models && b in store.models
    ensures store.GetModelLineage(a).Success? && store.GetModelLineage(b).Success?
    ensures Select(store.GetModelLineage(b).value.parentModels, EdgeFromParent(a))
         == Select(store.dependencies, EdgeBetween(a, b))
    ensures Select(store.GetModelLineage(a).value.childModels, EdgeIntoChild(b))
         == Select(store.dependencies, EdgeBetween(a, b))
  {
    SelectSelect(store.dependencies, EdgeIntoChild(b), EdgeFromParent(a), EdgeBetween(a, b));
    SelectSelect(store.dependencies, EdgeFromParent(a), EdgeIntoChild(b), EdgeBetween(a, b));
  }

  /**
   * For a model the registry does not hold, the link listing succeeds with no
   * rows while the lineage query fails with model-not-found.
   */
  lemma UnknownModelHasNoLinks(store: LineageStore, m: int)
    requires store.Valid()
    requires m !in store.models
    ensures store.GetModelDatasets(m) == []
    ensures store.GetModelLineage(m) == Failure(NotFound(ModelRef))
  {
  }

  /** An organization filter of 0 and a sensitivity filter of "" are the same as giving none. */
  lemma FalsyFiltersAreNoFilters(store: LineageStore, organizationId: Option<int>, dataSensitivity: Option<string>)
    ensures store.ListDatasets(Some(0), dataSensitivity) == store.ListDatasets(None, dataSensitivity)
    ensures store.ListDatasets(organizationId, Some("")) == store.ListDatasets(organizationId, None)
  {
    SelectSameFilter(store.datasets, DatasetFilter(Some(0), dataSensitivity), DatasetFilter(None, dataSensitivity));
    SelectSameFilter(store.datasets, DatasetFilter(organizationId, Some("")), DatasetFilter(organizationId, None));
  }

  /** A newest-first sequence whose row `d` is strictly newer than every other row starts with `d`. */
  lemma NewestRowLeads(s: seq<Dataset>, d: Dataset)
    requires NewestFirst(s)
    requires d in s
    requires forall x :: x in s && x != d ==> x.createdAt < d.createdAt
    ensures s[0] == d
  {
    var k :| 0 <= k < |s| && s[k] == d;
    if k != 0 {
      assert s[0].createdAt >= s[k].createdAt;
    }
  }

  /**
   * A dataset just created is the first one the unfiltered listing returns.
   * This rests on the store's clock, which never repeats or goes back: with a
   * wall clock two datasets can share a creation time, or a later one can carry
   * an earlier time, and then their order in the listing is not determined.
   */
  method CreateThenList(store: LineageStore, payload: DatasetCreate) returns (r: Result<Dataset, Error>)
    requires store.Valid()
    modifies store
    ensures store.Valid()
    ensures r.Success? <==> NameMinLength <= |payload.name| <= NameMaxLength
    ensures r.Success? ==> store.ListDatasets() != [] && store.ListDatasets()[0] == r.value
  {
    r := store.CreateDataset(payload);
    if r.Success? {
      var listed := store.ListDatasets();
      assert r.value in listed;
      forall x | x in listed && x != r.value ensures x.createdAt < r.value.createdAt {
        assert x in old(store.datasets);
      }
      NewestRowLeads(listed, r.value);
    }
  }

  /**
   * Linking the same dataset to the same model twice is accepted both times
   * and leaves two distinct links, both listed for the model.
   */
  method LinkSamePairTwice(store: LineageStore, modelId: int, payload: DatasetLinkCreate)
    returns (first: Result<ModelDatasetLink, Error>, second: Result<ModelDatasetLink, Error>)
    requires store.Valid()
    requires modelId in store.models && store.GetDataset(payload.datasetId).Success?
    modifies store
    ensures store.Valid()
    ensures first.Success? && second.Success?
    ensures first.value != second.value && first.value.id != second.value.id
    ensures first.value.datasetId == second.value.datasetId && first.value.modelId == second.value.modelId
    ensures store.links == old(store.links) + [first.value] + [second.value]
    ensures first.value in store.GetModelDatasets(modelId) && second.value in store.GetModelDatasets(modelId)
  {
    first := store.LinkDatasetToModel(modelId, payload);
    assert store.Valid() && modelId in store.models;
    assert store.GetDataset(payload.datasetId).Success?;
    second := store.LinkDatasetToModel(modelId, payload);
  }

  /**
   * A model may be declared to depend on itself: the edge is stored and the
   * model shows up as its own parent and its own child.
   */
  method DeclareSelfDependency(store: LineageStore, modelId: int, payload: DependencyCreate)
    returns (r: Result<ModelDependency, Error>)
    requires store.Valid()
    requires modelId in store.models && payload.parentModelId == modelId
    modifies store
    ensures store.Valid()
    ensures r.Success? && r.value.parentModelId == modelId && r.value.childModelId == modelId
    ensures store.GetModelLineage(modelId).Success?
    ensures r.value in store.GetModelLineage(modelId).value.parentModels
    ensures r.value in store.GetModelLineage(modelId).value.childModels
  {
    r := store.CreateDependency(modelId, payload);
  }
}
