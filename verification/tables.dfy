/**
 * Table lookup: getTableNoResolve, getTable(key) and getTable(datasetId) over a
 * snapshot of the persisted namespace. Not finding a table is a normal `None`.
 */
module Tables {
  import opened Wrappers
  import opened Names

  datatype DatasetKind = Physical | Virtual

  /** A resolved table handle. */
  datatype DremioTable = DremioTable(path: NamespaceKey, datasetId: string, kind: DatasetKind)

  /**
   * The persisted datasets as the catalog sees them: at most one dataset per
   * path, and an index from dataset identifier to path.
   */
  datatype Namespace = Namespace(datasets: map<NamespaceKey, DremioTable>, ids: map<string, NamespaceKey>)
  {
    ghost predicate Valid() {
      (forall k | k in datasets :: datasets[k].path == k && datasets[k].datasetId in ids && ids[datasets[k].datasetId] == k)
      && (forall id | id in ids :: ids[id] in datasets && datasets[ids[id]].datasetId == id)
    }
  }

  /** getTableNoResolve: look the key up exactly as given. */
  function GetTableNoResolve(ns: Namespace, key: NamespaceKey): (r: Option<DremioTable>)
    ensures r.None? <==> key !in ns.datasets
    ensures r.Some? ==> r.value == ns.datasets[key]
    ensures ns.Valid() && r.Some? ==> r.value.path == key
  {
    if key in ns.datasets then Some(ns.datasets[key]) else None
  }

  /**
   * getTable(key): first the key under the default schema (when one is set),
   * then the key as written.
   */
  function GetTable(ctx: Context, ns: Namespace, key: NamespaceKey): (r: Option<DremioTable>)
    ensures r.None? <==> key !in ns.datasets && ResolveToDefault(ctx, key) !in ns.datasets
    ensures ResolveToDefault(ctx, key) in ns.datasets ==> r == Some(ns.datasets[ResolveToDefault(ctx, key)])
    ensures ResolveToDefault(ctx, key) !in ns.datasets ==> r == GetTableNoResolve(ns, key)
    ensures ns.Valid() && r.Some? ==> r.value.path in {key, ResolveToDefault(ctx, key)}
  {
    match ctx.defaultSchema
    case Some(_) =>
      var resolved := GetTableNoResolve(ns, ResolveToDefault(ctx, key));
      if resolved.Some? then resolved else GetTableNoResolve(ns, key)
    case None => GetTableNoResolve(ns, key)
  }

  /** getTable(datasetId): look a dataset up by its durable identifier. */
  function GetTableById(ns: Namespace, id: string): (r: Option<DremioTable>)
    requires ns.Valid()
    ensures r.Some? ==> r.value.datasetId == id && r.value.path in ns.datasets && ns.datasets[r.value.path] == r.value
    ensures r.None? <==> forall k | k in ns.datasets :: ns.datasets[k].datasetId != id
  {
    if id in ns.ids then Some(ns.datasets[ns.ids[id]]) else None
  }

  /** Without a default schema, getTable and getTableNoResolve agree. */
  lemma GetTableWithoutSchema(ctx: Context, ns: Namespace, key: NamespaceKey)
    requires ctx.defaultSchema.None?
    ensures GetTable(ctx, ns, key) == GetTableNoResolve(ns, key)
  {
  }

  /** A table found by path is found again by its identifier. */
  lemma LookupByPathThenById(ns: Namespace, key: NamespaceKey)
    requires ns.Valid() && GetTableNoResolve(ns, key).Some?
    ensures GetTableById(ns, GetTableNoResolve(ns, key).value.datasetId) == GetTableNoResolve(ns, key)
  {
  }
}
