# Dremio catalog contract, modelled in Dafny

This project is a reference model of the `Catalog` interface of Dremio's
query engine (`com.dremio.exec.catalog.Catalog`). A catalog is bound to one
user and an optional default schema. It resolves dataset references, checks
whether containers exist, and manages the lifecycle of storage sources.
The interface gives no implementation. The model states what its doc-comments
promise and proves those promises.

Modules:

- `Names` (`names.dfy`): namespace keys (non-empty segment sequences), the
  catalog context (user, optional default schema), `resolveSingle` and
  `resolveToDefault`.
- `Tables` (`tables.dfy`): `getTableNoResolve`, `getTable(key)` and
  `getTable(datasetId)` over a snapshot of the persisted namespace. A missing
  table is `None`, not an error.
- `Containers` (`containers.dfy`): `containerExists`. Every path is first
  looked up in the namespace store. For a path inside a source, two more tiers
  follow: a physical dataset in the path, then the source itself. Each tier,
  and the question whether a path lies in a source, is an oracle function
  passed in. The result records which tiers were asked.
- `Sources` (`sources.dfy`): the source registry. It maps each source name to a
  versioned config and keeps a cache of source states. `Create`, `Update` and
  `Delete` are pure transition functions. The class `SourceManager` holds the
  two maps as fields, and its methods `CreateSource`, `UpdateSource` and
  `DeleteSource` update them in place. Each method is proved equal to its
  transition function. `GetSourceState` reads the cache.
- `SourceTraces` (`traces.dfy`): properties over any sequence of lifecycle
  calls.
- `Catalogs` (`catalogs.dfy`): the facade value, a context plus a reference to
  the shared `SourceManager`, with `getUser`, `getDefaultSchema` and the three
  `resolveCatalog` forms. A catalog is an immutable value. Re-contextualising
  builds a new value, so the original catalog's user and default schema stay
  as they were by construction; the model states no lemma for that.

Interpretations of the doc-comments:

- `getTable(key)` ("first checking the default schema") first looks up the
  key under the default schema, if one is set. If nothing is there, it looks
  up the key as written.
- `createSource` checks the name first. A duplicate name is always reported as
  `AlreadyExists`, whatever version the new config carries. Next comes a
  non-null version, which the doc-comment says the config "should" not have;
  it is rejected as `VersionSupplied`. Then a failed start, then a bad state
  when state checking is on. Every failure leaves the registry unchanged.
- A created source is stored with version 0, and each successful update adds
  1. This matches the REST test, which reads tag "1" after one edit.
- "The config doesn't match" in `deleteSource` is read as a version mismatch,
  the same rule as `updateSource`. A config with no version never matches.
- `updateSource` keeps the cached source state. `deleteSource` drops it, so
  `getSourceState` then reports the source as unknown.
- The `store.plugin.check_state` option and the outcome of starting a source
  are inputs to `createSource`.

## Model

| member | source | states |
|---|---|---|
| `Names.ResolveSingle` | sabot/kernel/src/main/java/com/dremio/exec/catalog/Catalog.java:73-81 | the key is always the tail of the result; only a single-segment key under a default schema is rewritten, and then exactly the default schema is put in front of it |
| `Names.ResolveToDefault` | sabot/kernel/src/main/java/com/dremio/exec/catalog/Catalog.java:118-123 | with no default schema the key comes back unchanged; with one, the result is the schema followed by the key |
| `Names.ResolveSingleVersusResolveToDefault` | sabot/kernel/src/main/java/com/dremio/exec/catalog/Catalog.java:73-123 | on single-segment keys the two rules agree; on longer keys resolveSingle returns the key as written |
| `Names.ResolveSingleIdempotent` | sabot/kernel/src/main/java/com/dremio/exec/catalog/Catalog.java:73-81 | resolving an already resolved reference changes nothing |
| `Names.ResolveToDefaultInjective` | sabot/kernel/src/main/java/com/dremio/exec/catalog/Catalog.java:118-123 | under one context, distinct keys never resolve to the same path |
| `Names.ResolutionIgnoresUser` | sabot/kernel/src/main/java/com/dremio/exec/catalog/Catalog.java:38-42 | resolution depends only on the default schema of the context, not on the user |
| `Tables.GetTableNoResolve` | sabot/kernel/src/main/java/com/dremio/exec/catalog/Catalog.java:44-50 | `None` exactly when no dataset exists at the key as given, with no schema prefixing; otherwise exactly the table stored at that path |
| `Tables.GetTable` | sabot/kernel/src/main/java/com/dremio/exec/catalog/Catalog.java:52-58 | the table stored under the default schema wins; when there is none, the result is the lookup of the key as written; `None` exactly when neither path holds a dataset |
| `Tables.GetTableById` | sabot/kernel/src/main/java/com/dremio/exec/catalog/Catalog.java:60-66 | a found table carries the requested id and is the dataset stored at its path; `None` exactly when no dataset has that id |
| `Tables.GetTableWithoutSchema` | sabot/kernel/src/main/java/com/dremio/exec/catalog/Catalog.java:44-58 | without a default schema, getTable and getTableNoResolve agree |
| `Tables.LookupByPathThenById` | sabot/kernel/src/main/java/com/dremio/exec/catalog/Catalog.java:44-66 | a table found by path is found again by its dataset id |
| `Containers.ContainerExists` | sabot/kernel/src/main/java/com/dremio/exec/catalog/Catalog.java:83-93 | for a path in a source: true iff some tier says it exists; elsewhere: the namespace lookup alone decides; the tiers asked are a prefix of namespace, physical dataset, source; every tier before the last said no and the last one asked gives the answer |
| `Containers.TierAskedOnlyAfterEarlierFailures` | sabot/kernel/src/main/java/com/dremio/exec/catalog/Catalog.java:83-88 | the physical-dataset check runs iff the path is in a source and the lookup failed; the source probe runs iff, in addition, the dataset check failed |
| `Containers.OnlySourceKnows` | sabot/kernel/src/main/java/com/dremio/exec/catalog/Catalog.java:86-88 | a path in a source that only the source reports is found, after all three tiers were asked |
| `Containers.NotFoundMeansAllAsked` | sabot/kernel/src/main/java/com/dremio/exec/catalog/Catalog.java:90-93 | false means the lookup failed and, for a path in a source, all three tiers were asked and none reports the path |
| `Sources.Create` | sabot/kernel/src/main/java/com/dremio/exec/catalog/Catalog.java:192-202 | succeeds iff the name is free, the version is null, the start succeeds and state checking does not find a bad state; each failure names its cause (already exists, version supplied, connector failure carrying the connector's reason, bad state after start); any failure leaves the registry unchanged; on success the config is stored with version 0, its state is cached and other sources are untouched; the registry invariant is kept |
| `Sources.Update` | sabot/kernel/src/main/java/com/dremio/exec/catalog/Catalog.java:204-210 | succeeds iff the source exists and the supplied version equals the stored one; otherwise not found for an unknown source and a version conflict for a mismatched version, and nothing changes; on success the new config is stored with the version moved on by one and nothing else changes |
| `Sources.Delete` | sabot/kernel/src/main/java/com/dremio/exec/catalog/Catalog.java:212-218 | fails with not found for an unknown source and with a conflict for a mismatched version, changing nothing; on success the name is gone from configs and state cache, and other sources are untouched |
| `Sources.StateOf` | sabot/kernel/src/main/java/com/dremio/exec/catalog/Catalog.java:229-235 | `None` exactly for a name not in the registry; otherwise the cached state |
| `Sources.CreateTwiceRejected` | dac/backend/src/test/java/com/dremio/dac/api/TestCatalogResource.java:217-225 | a second create under a name just created fails with AlreadyExists and leaves the registry as the first call left it |
| `Sources.FirstEditGivesVersionOne` | dac/backend/src/test/java/com/dremio/dac/api/TestCatalogResource.java:227-231 | editing a freshly created source with the config read back succeeds and yields version 1 |
| `Sources.StaleVersionRejected` | sabot/kernel/src/main/java/com/dremio/exec/catalog/Catalog.java:204-218 | after a successful update, updating or deleting again with the old version is a conflict that changes nothing |
| `Sources.DeleteUndoesCreate` | sabot/kernel/src/main/java/com/dremio/exec/catalog/Catalog.java:192-218 | deleting a just-created source with the config read back restores the registry exactly |
| `Sources.DeletedSourceHasNoState` | sabot/kernel/src/main/java/com/dremio/exec/catalog/Catalog.java:212-235 | after a successful delete, the source state lookup returns `None` |
| `Sources.SourceManager.CreateSource` | sabot/kernel/src/main/java/com/dremio/exec/catalog/Catalog.java:192-202 | updates the registry fields in place exactly as `Sources.Create` prescribes, returns its outcome, and keeps the registry invariant |
| `Sources.SourceManager.UpdateSource` | sabot/kernel/src/main/java/com/dremio/exec/catalog/Catalog.java:204-210 | updates the registry fields in place exactly as `Sources.Update` prescribes and keeps the invariant |
| `Sources.SourceManager.DeleteSource` | sabot/kernel/src/main/java/com/dremio/exec/catalog/Catalog.java:212-218 | updates the registry fields in place exactly as `Sources.Delete` prescribes and keeps the invariant |
| `Sources.SourceManager.GetSourceState` | sabot/kernel/src/main/java/com/dremio/exec/catalog/Catalog.java:229-235 | null (`None`) exactly when the source is not registered; otherwise the last cached state |
| `SourceTraces.RunPreservesValid` | sabot/kernel/src/main/java/com/dremio/exec/catalog/Catalog.java:192-218 | after any sequence of create/update/delete calls there is at most one versioned config per name, each filed under its own name, with a cached state |
| `SourceTraces.StepLeavesOtherAlone` | sabot/kernel/src/main/java/com/dremio/exec/catalog/Catalog.java:192-218 | one call about another source leaves this source's config and cached state as they were |
| `SourceTraces.OtherCallsLeaveSourceAlone` | sabot/kernel/src/main/java/com/dremio/exec/catalog/Catalog.java:192-218 | any sequence of calls about other sources leaves this source's config and cached state as they were |
| `SourceTraces.VersionCountsEdits` | sabot/kernel/src/main/java/com/dremio/exec/catalog/Catalog.java:204-210 | a source that is never deleted stays registered, and its version grows by exactly the number of successful edits |
| `SourceTraces.CreatedThenEdited` | dac/backend/src/test/java/com/dremio/dac/api/TestCatalogResource.java:227-231 | a source created and then edited k times by successful updates carries version k |
| `Catalogs.GetUser` | sabot/kernel/src/main/java/com/dremio/exec/catalog/Catalog.java:116 | the user in the catalog's context |
| `Catalogs.GetDefaultSchema` | sabot/kernel/src/main/java/com/dremio/exec/catalog/Catalog.java:114 | the default schema in the catalog's context, `None` when there is none |
| `Catalogs.ResolveCatalog` | sabot/kernel/src/main/java/com/dremio/exec/catalog/Catalog.java:125-132 | the new catalog reports the given user and default schema and shares the original's registry |
| `Catalogs.ResolveCatalogForUser` | sabot/kernel/src/main/java/com/dremio/exec/catalog/Catalog.java:134-140 | the new catalog reports the given user, keeps the default schema and shares the registry |
| `Catalogs.ResolveCatalogForSchema` | sabot/kernel/src/main/java/com/dremio/exec/catalog/Catalog.java:142-147 | the new catalog reports the given default schema, keeps the user and shares the registry |
| `Catalogs.ResolveCatalogComposes` | sabot/kernel/src/main/java/com/dremio/exec/catalog/Catalog.java:125-147 | the two one-argument forms, applied in either order, give the two-argument form |
| `Catalogs.RecontextualisedResolution` | sabot/kernel/src/main/java/com/dremio/exec/catalog/Catalog.java:125-132 | a catalog re-contextualised to a schema places a single-segment reference, and every write target, under that schema |
| `Catalogs.CreateThroughRecontextualised` | sabot/kernel/src/main/java/com/dremio/exec/catalog/Catalog.java:125-132 | a source created through a re-contextualised catalog is registered, with its cached state, in the registry the original catalog uses |

## Left out

- Thread safety and per-source synchronisation: every operation is modelled as atomic.
- `getAllRequestedTables`: a per-instance record of lookups. Lookups here are pure functions, so nothing records them.
- `listSchemas`, `listDatasets`, `getFunctions`, `getMetadataStatsCollector`, `getSubPartitions`: listing and planner-support calls. The one rule stated for `listSchemas` is that an empty path lists every schema, nested ones included. That rule is a listing over the namespace store's tree, which the model does not represent. `getSubPartitions` lists partition values read from storage. The others return Calcite, planner or information-schema types, and their doc-comments state no behaviour beyond the signatures.
- Source names and namespace keys are compared by exact string equality. Case and quoting normalisation belong to the namespace store, which is not part of this model.
- `createNewTable`, `createView`, `dropView`, `dropTable`, `createDataset`: writer and view plumbing whose doc-comments say nothing beyond the signatures.
- `refreshDataset`, `refreshSourceStatus`, `createOrUpdateDataset`, `getSource`: live plugin probes, storage I/O and key-value store synchronisation.
- `isSourceConfigMetadataImpacting`: the set of metadata-impacting fields is not given. For the same reason, the background metadata re-sync after an impacting update is not modelled.
- `Sources.Update`: does not restart the source or recompute its cached state; the cache keeps the state from creation.
- The namespace store, the physical-dataset probe and the storage plugins are inputs: a namespace snapshot, oracle functions for the three tiers, and the start-up result.
- `Tables.GetTable`: lookups read a namespace snapshot that is not linked to the source registry. A dataset whose source was deleted is still found if its entry is in the snapshot; the lazy "not found" for metadata left behind by a deleted source is not modelled. The same holds for `Tables.GetTableNoResolve` and `Tables.GetTableById`.
- `Containers.ContainerExists`: whether a path lies in a source is an oracle input. The model does not derive it from the source registry.
- Access control: "readable by the user" in `containerExists` is left to the oracles, which stand for the answers the user's catalog would get.
