/**
 * Namespace keys and the request context a catalog is bound to, with the two
 * default-schema resolution rules of the catalog interface.
 */
module Names {
  import opened Wrappers

  /** A hierarchical path: an ordered, non-empty sequence of segments. */
  type NamespaceKey = k: seq<string> | |k| > 0 witness [""]

  /** The context a catalog is always bound to: one user and an optional default schema. */
  datatype Context = Context(user: string, defaultSchema: Option<seq<string>>)

  /**
   * resolveSingle: a single-segment reference is resolved inside the default
   * schema, if there is one; any other reference is used as written.
   */
  function ResolveSingle(ctx: Context, key: NamespaceKey): (r: NamespaceKey)
    // the reference itself is always the tail of the result
    ensures |key| <= |r| && r[|r| - |key|..] == key
    // only a single-segment reference under a default schema is rewritten ...
    ensures !(|key| == 1 && ctx.defaultSchema.Some?) ==> r == key
    // ... and then what is put in front of it is exactly the default schema
    ensures |key| == 1 && ctx.defaultSchema.Some? ==> r[..|r| - 1] == ctx.defaultSchema.value
  {
    if |key| == 1 && ctx.defaultSchema.Some? then ctx.defaultSchema.value + key else key
  }

  /**
   * resolveToDefault: the key is placed under the default schema whenever one
   * is set, whatever its length.
   */
  function ResolveToDefault(ctx: Context, key: NamespaceKey): (r: NamespaceKey)
    ensures |key| <= |r| && r[|r| - |key|..] == key
    ensures ctx.defaultSchema.None? ==> r == key
    ensures ctx.defaultSchema.Some? ==>
              |r| == |ctx.defaultSchema.value| + |key| && r[..|ctx.defaultSchema.value|] == ctx.defaultSchema.value
  {
    match ctx.defaultSchema
    case None => key
    case Some(schema) => schema + key
  }

  /** The two rules coincide on single-segment keys; on longer keys resolveSingle leaves the key alone. */
  lemma ResolveSingleVersusResolveToDefault(ctx: Context, key: NamespaceKey)
    ensures |key| == 1 ==> ResolveSingle(ctx, key) == ResolveToDefault(ctx, key)
    ensures |key| > 1 ==> ResolveSingle(ctx, key) == key
  {
  }

  /**
   * Resolving an already-resolved key changes nothing: a rewritten key either
   * has at least two segments or (empty default schema) is the key itself.
   */
  lemma ResolveSingleIdempotent(ctx: Context, key: NamespaceKey)
    ensures ResolveSingle(ctx, ResolveSingle(ctx, key)) == ResolveSingle(ctx, key)
  {
  }

  /** Under one context, distinct keys never resolve to the same write target. */
  lemma ResolveToDefaultInjective(ctx: Context, k1: NamespaceKey, k2: NamespaceKey)
    requires ResolveToDefault(ctx, k1) == ResolveToDefault(ctx, k2)
    ensures k1 == k2
  {
  }

  /** Resolution is a function of the default schema alone: the user plays no part. */
  lemma ResolutionIgnoresUser(c1: Context, c2: Context, key: NamespaceKey)
    requires c1.defaultSchema == c2.defaultSchema
    ensures ResolveSingle(c1, key) == ResolveSingle(c2, key)
    ensures ResolveToDefault(c1, key) == ResolveToDefault(c2, key)
  {
  }
}
