# Lineage store of the AI governance hub, in Dafny

The governance hub keeps a lineage catalogue. It records which datasets a
model was trained, validated, tested or run on, and which models were derived
from which. Without the web framework and the ORM, this catalogue is three
append-only tables:

- `Dataset`;
- `ModelDatasetLink`, an edge from a dataset to a model;
- `ModelDependency`, an edge from a parent model to a child model.

Beside them is the set of model ids that exist in an externally owned model
registry. The model covers:

- `wrappers.dfy`: `Option` and `Result`.
- `lineage_models.dfy` (module `LineageModels`): the two edge-type
  enumerations with their string values and lookup by value, and the three
  row records. Their fields are only passed by name and carry the source's
  defaults.
- `tables.dfy` (module `Tables`): the relational steps the routes use over a
  table held as a sequence in insertion order. These are WHERE (`Select`),
  lookup by primary key (`FindDataset`) and ORDER BY `created_at` DESC
  (`SortNewestFirst`, an insertion sort).
- `lineage_routes.dfy` (module `LineageRoutes`): the request payloads, the
  error datatype and the class `LineageStore`. Its fields are the three
  tables, the registry's model ids and a clock. Each POST route is a method
  with `modifies this`. It checks references in the route's order and appends
  exactly one row on success. Each GET route is a function over the tables.
  HTTP 404 and 422 become `Failure(NotFound(...))` and
  `Failure(ValidationError(...))`.
- `lineage_properties.dfy` (module `LineageProperties`): properties that
  involve several routes. It also has client methods for two checks the
  routes do not make: a repeated link and a self-dependency are both accepted.

The store's invariant `LineageStore.Valid` says four things:

- every row has an id in `[1, clock)`;
- ids grow with insertion order, so no id repeats within a table;
- every dataset was created before the current time;
- every reference that a link or an edge holds resolves, to a registered model
  or to a stored dataset.

All three POST methods preserve it.

One natural-number `clock` stands in for both database id assignment and
`datetime.utcnow`. Each insert takes the current tick as the row's id and its
`created_at`, then advances the clock.

The model follows what the code enforces, which is less than its comments suggest:

- `data_sensitivity` and `data_classification` are plain strings. The comments
  at `backend/app/models/lineage.py:41-42` list the intended values (public,
  internal, pii, phi, pci; public, internal, confidential, restricted), but
  nothing enforces them. A stored value such as `"pii"` or `"confidential"` is
  kept as given, and no value is rejected.
- The only payload check on a dataset is a name length of 1 to 255 characters
  (`backend/app/api/lineage_routes.py:23`). `record_count` may be any integer
  the payload accepts; the column itself is 32-bit (see "## Left out").
- A dependency of a model on itself is accepted, and cycles are not detected.
- `get_model_datasets` does not check that the model exists. `get_model_lineage`
  does.

## Model

| member | source | states |
|---|---|---|
| `LineageModels.ParseDatasetType` | backend/app/models/lineage.py:13-18 | Lookup by value succeeds exactly for the value of some member, and returns a member whose value is the given string. |
| `LineageModels.DatasetTypeMembers` | backend/app/models/lineage.py:13-18 | DatasetType has exactly four members (training, validation, test, inference), and their string values are pairwise distinct. |
| `LineageModels.DatasetTypeRoundTrip` | AIGovHub/backend/tests/test_lineage.py:23-28 | Looking a DatasetType member up by its own value gives that member back. |
| `LineageModels.ParseDependencyType` | backend/app/models/lineage.py:21-26 | Lookup by value succeeds exactly for the value of some member, and returns a member whose value is the given string. |
| `LineageModels.DependencyTypeMembers` | backend/app/models/lineage.py:21-26 | DependencyType has exactly four members (fine_tuned_from, ensemble_component_of, distilled_from, derived_from), and their values are pairwise distinct. |
| `LineageModels.DependencyTypeRoundTrip` | AIGovHub/backend/tests/test_lineage.py:31-36 | Looking a DependencyType member up by its own value gives that member back. |
| `LineageModels.DatasetDefaults` | backend/app/models/lineage.py:34-51 | A Dataset built from a name alone has no id, sensitivity and classification "internal", and every optional field None. Supplied sensitivity and classification strings are stored unchanged. |
| `LineageModels.LinkDefaults` | backend/app/models/lineage.py:59-65 | A link keeps its model and dataset ids. It has no id, no version and no notes. Its type defaults to training, and a supplied type is kept. |
| `LineageModels.DependencyDefaults` | backend/app/models/lineage.py:73-80 | A dependency keeps its parent and child ids. It has no id, no version ids and no notes. Its type defaults to derived_from, and a supplied type is kept. |
| `Tables.Select` | backend/app/api/lineage_routes.py:163-165 | A WHERE clause returns exactly the rows that satisfy the predicate, each with its stored multiplicity. |
| `Tables.SelectSelect` | backend/app/api/lineage_routes.py:211-218 | Filtering by one predicate and then another gives the same sequence as filtering by their conjunction. |
| `Tables.SelectSameFilter` | backend/app/api/lineage_routes.py:114-118 | Two predicates that admit the same rows select the same sequence. |
| `Tables.FindDataset` | backend/app/api/lineage_routes.py:125 | Primary-key lookup returns a stored row with that id. It returns None exactly when no stored row has that id. |
| `Tables.InsertNewestFirst` | backend/app/api/lineage_routes.py:119 | Inserting into a newest-first sequence keeps it newest first and adds exactly the one row. |
| `Tables.SortNewestFirst` | backend/app/api/lineage_routes.py:119 | ORDER BY created_at DESC yields a permutation of its input whose creation times never increase. |
| `LineageRoutes.ValidateDatasetCreate` | backend/app/api/lineage_routes.py:22-30 | A dataset payload is accepted exactly when its name has 1 to 255 characters. A shorter name is rejected as too short and a longer one as too long. |
| `LineageRoutes.LineageStore.GetDataset` | backend/app/api/lineage_routes.py:122-128 | Succeeds with a stored dataset carrying the requested id. Fails with dataset-not-found exactly when no stored dataset has that id. |
| `LineageRoutes.DatasetIdIdentifiesRow` | backend/app/models/lineage.py:34 | In a valid store, two stored datasets with the same id are the same row, so the row that get_dataset returns is the only one with that id. |
| `LineageRoutes.LineageStore.ListDatasets` | backend/app/api/lineage_routes.py:107-119 | Returns exactly the stored datasets that pass every truthy filter, each as often as stored, newest first. An organization filter of None or 0, or a sensitivity filter of None or "", constrains nothing. |
| `LineageRoutes.LineageStore.GetModelDatasets` | backend/app/api/lineage_routes.py:160-165 | Never fails. Returns exactly the links whose model_id is the given id, each as often as stored. |
| `LineageRoutes.LineageStore.GetModelLineage` | backend/app/api/lineage_routes.py:198-224 | Fails with model-not-found exactly when the model is not registered. Otherwise it returns the model's links, the edges whose child is the model (its parents) and the edges whose parent is the model (its children). |
| `LineageRoutes.LineageStore.CreateDataset` | backend/app/api/lineage_routes.py:97-104 | A name outside 1..255 changes nothing and gives the matching validation error. Otherwise it appends one dataset. That dataset has the payload's fields, schema_info and updated_at None, and a fresh id and time newer than every earlier dataset. get_dataset of that id returns it, and no other table changes. |
| `LineageRoutes.LineageStore.LinkDatasetToModel` | backend/app/api/lineage_routes.py:132-157 | An unregistered model gives model-not-found, even when the dataset is missing too. Otherwise a missing dataset gives dataset-not-found, and a failure changes nothing. On success it appends exactly one link. The link takes model_id from the path and dataset_id, dataset_type, model_version_id and notes from the payload. It also has a fresh id and is listed for the model. No other table changes. |
| `LineageRoutes.LineageStore.CreateDependency` | backend/app/api/lineage_routes.py:169-194 | An unregistered model gives model-not-found. Otherwise an unregistered parent gives parent-not-found, and a failure changes nothing. On success it appends one edge with child = the path id, the payload's parent, version, type and notes, child_version_id None and a fresh id. Parent == child is not rejected. |
| `LineageProperties.EdgeInBothViews` | backend/app/api/lineage_routes.py:210-218 | In a valid store, every dependency edge appears among the parents in its child's lineage and among the children in its parent's lineage. |
| `LineageProperties.ParentAndChildViewsAgree` | backend/app/api/lineage_routes.py:210-218 | For registered models a and b, the edges from a among b's parents and the edges into b among a's children are the same sequence: the a-to-b edges. |
| `LineageProperties.UnknownModelHasNoLinks` | backend/app/api/lineage_routes.py:160-203 | For a model the registry lacks, in a valid store, the link listing succeeds and is empty, while the lineage query fails with model-not-found. |
| `LineageProperties.FalsyFiltersAreNoFilters` | backend/app/api/lineage_routes.py:114-118 | Listing with organization filter 0 is listing with none, and listing with sensitivity filter "" is listing with none. |
| `LineageProperties.CreateThenList` | backend/app/api/lineage_routes.py:97-119 | A dataset just created leads the unfiltered, newest-first listing. This holds because the model's clock never repeats or steps back. With `datetime.utcnow`, two datasets can share a creation time and their order is then open. |
| `LineageProperties.LinkSamePairTwice` | backend/app/api/lineage_routes.py:147-156 | Linking the same dataset to the same model twice succeeds both times. It appends two distinct links with distinct ids, and both are listed for the model. |
| `LineageProperties.DeclareSelfDependency` | backend/app/api/lineage_routes.py:184-194 | A model declared to depend on itself gets the edge stored, and the edge appears both among its parents and among its children. |

## Left out

- The FastAPI routing, `Depends(get_session)`, HTTP status codes and
  `response_model` serialisation. The routes return rows and `Result` values.
  The read schemas `DatasetRead`, `DatasetLinkRead` and `DependencyRead` are
  not modelled. `DatasetLinkRead` and `DependencyRead` list every column of
  their rows; only `DatasetRead` drops fields (`schema_info` and `updated_at`).
- Decoding of request bodies and query strings is not modelled, apart from the
  dataset name's length constraint. Payloads arrive already typed. An unknown
  `dataset_type` or `dependency_type` string is covered only by
  `ParseDatasetType` and `ParseDependencyType` returning None, not by a 422 in
  the link and dependency routes.
- SQLModel and SQLAlchemy session mechanics (add, commit, refresh),
  transactions and database foreign-key enforcement. The store is an in-memory
  object and each route runs to completion without interference. Concurrency
  is not modelled.
- `datetime.utcnow` is replaced by the store's `clock`. It is strictly
  monotone, so creation times never tie and wall-clock behaviour is not
  modelled. Ids come from the same clock: they are unique and increasing, but
  not dense per table as a database sequence usually is.
- The model registry (`ModelRegistry`, `ModelVersion`) is represented only by
  the set of registered model ids. That set is a `const` field, fixed when the
  store is built:
  registering or deleting models belongs to other routes and is not part of
  this model. Version ids are stored but never checked.
- `schema_info` is a JSONB document in the source. Here it is a map from
  strings to strings, and it is always None for datasets made by the routes.
- `updated_at` is kept as a field but nothing sets it, as in the source.
- `LineageRoutes.LineageStore.CreateDataset`: failures that the database
  raises on insert, other than foreign-key violations, are not modelled. One is
  a `record_count` or `organization_id` outside the 32-bit INTEGER range
  (`backend/app/models/lineage.py:45,48`). Another is a NUL character in a text
  column, which Postgres refuses. The source answers those with an error and
  stores nothing. The model's success condition is the payload check alone, so
  it returns `Success` and appends the row.
- `LineageRoutes.LineageStore.LinkDatasetToModel`: the same holds for its
  insert. A `model_version_id` outside the 32-bit range, or a NUL character in
  `notes`, fails at commit in the source. The model's success condition is the
  two reference checks alone.
- `LineageRoutes.LineageStore.CreateDependency`: the same holds for its insert.
  A `parent_version_id` outside the 32-bit range, or a NUL character in
  `notes`, fails at commit in the source. The model's success condition is the
  two reference checks alone.
- `LineageRoutes.LineageStore.GetModelDatasets`: SQL without ORDER BY promises
  no order. The model returns links in insertion order, and its contract
  speaks only of which links are returned and how often. The same holds for
  the three lists of `GetModelLineage`, whose contract ties them to that
  order.
- The `DataSensitivity` and `DataClassification` enumerations tested in
  `backend/tests/test_classification.py` are not part of this model. Their
  definitions are not among the core files, and the dataset fields are plain
  strings.
- The frontend type declarations (`AIGovHub/frontend/src/types.ts`) and the
  package re-exports (`AIGovHub/backend/app/models/__init__.py`) hold no
  behaviour.
- Vocabulary validation of sensitivity and classification, rejection of
  self-dependencies, cycle detection and transitive ancestor or descendant
  queries are not modelled. The source has none of them.
