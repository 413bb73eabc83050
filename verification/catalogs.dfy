/**
 * The catalog facade: a context (user, default schema) bound to the shared
 * source registry. Re-contextualising builds a new facade value over the same
 * registry; the original value is not changed.
 */
module Catalogs {
  import opened Wrappers
  import opened Names
  import opened Sources

  /**
   * A catalog value. The table lookups (`Tables`) and `containerExists`
   * (`Containers`) read external stores, so they take the catalog's context
   * together with the namespace snapshot or the tier oracles explicitly.
   */
  datatype Catalog = Catalog(ctx: Context, registry: SourceManager)

  /** getUser: the user this catalog is bound to. */
  function GetUser(c: Catalog): (r: string)
    ensures r == c.ctx.user
  {
    c.ctx.user
  }

  /** getDefaultSchema: the default schema this catalog is bound to, if any. */
  function GetDefaultSchema(c: Catalog): (r: Option<seq<string>>)
    ensures r == c.ctx.defaultSchema
  {
    c.ctx.defaultSchema
  }

  /** resolveCatalog(username, newDefaultSchema) */
  function ResolveCatalog(c: Catalog, user: string, schema: Option<seq<string>>): (r: Catalog)
    ensures GetUser(r) == user && GetDefaultSchema(r) == schema
    ensures r.registry == c.registry
  {
    Catalog(Context(user, schema), c.registry)
  }

  /** resolveCatalog(username): the default schema is kept. */
  function ResolveCatalogForUser(c: Catalog, user: string): (r: Catalog)
    ensures GetUser(r) == user && GetDefaultSchema(r) == GetDefaultSchema(c)
    ensures r.registry == c.registry
  {
    c.(ctx := c.ctx.(user := user))
  }

  /** resolveCatalog(newDefaultSchema): the user is kept. */
  function ResolveCatalogForSchema(c: Catalog, schema: Option<seq<string>>): (r: Catalog)
    ensures GetUser(r) == GetUser(c) && GetDefaultSchema(r) == schema
    ensures r.registry == c.registry
  {
    c.(ctx := c.ctx.(defaultSchema := schema))
  }

  /** The single-argument forms compose, in either order, into the two-argument form. */
  lemma ResolveCatalogComposes(c: Catalog, user: string, schema: Option<seq<string>>)
    ensures ResolveCatalogForSchema(ResolveCatalogForUser(c, user), schema) == ResolveCatalog(c, user, schema)
    ensures ResolveCatalogForUser(ResolveCatalogForSchema(c, schema), user) == ResolveCatalog(c, user, schema)
  {
  }

  /**
   * A catalog re-contextualised to a schema resolves names under that schema:
   * a single segment and any write target are placed under it.
   */
  lemma RecontextualisedResolution(c: Catalog, user: string, schema: seq<string>, key: NamespaceKey)
    ensures |key| == 1 ==> ResolveSingle(ResolveCatalog(c, user, Some(schema)).ctx, key) == schema + key
    ensures ResolveToDefault(ResolveCatalog(c, user, Some(schema)).ctx, key) == schema + key
  {
  }

  /**
   * The registry is shared: a source created through a re-contextualised
   * catalog is registered for the original one too, whose context is unchanged.
   */
  method CreateThroughRecontextualised(c: Catalog, user: string, schema: Option<seq<string>>,
                                       config: SourceConfig, start: StartResult, checkState: bool)
    returns (outcome: Outcome, other: Catalog)
    requires c.registry.Valid()
    modifies c.registry
    ensures other == ResolveCatalog(c, user, schema)
    ensures c.registry.Valid()
    ensures outcome == Ok ==> start.Started? && c.registry.GetSourceState(config.name) == Some(start.state)
    ensures Transition(outcome, c.registry.Model()) == Create(old(c.registry.Model()), config, start, checkState)
  {
    other := ResolveCatalog(c, user, schema);
    outcome := other.registry.CreateSource(config, start, checkState);
  }
}
