/**
 * containerExists: the existence check for containers. Every path is first
 * looked up in the namespace store; for a path inside a source, two more tiers
 * follow: a physical dataset in the path, then the source itself. The namespace
 * store, the dataset probe and the source are external; each is an oracle that
 * answers for a path, and so is the question whether a path lies in a source.
 */
module Containers {
  import opened Names

  /** The tiers, in the order they are consulted. */
  datatype Tier = NamespaceLookup | PhysicalDatasetInPath | SourceProbe

  /** The answers the collaborators would give for any path. */
  datatype Oracles = Oracles(
    underSource: NamespaceKey -> bool,
    namespaceHas: NamespaceKey -> bool,
    physicalDatasetIn: NamespaceKey -> bool,
    sourceReports: NamespaceKey -> bool)

  function Ask(o: Oracles, t: Tier, path: NamespaceKey): bool {
    match t
    case NamespaceLookup => o.namespaceHas(path)
    case PhysicalDatasetInPath => o.physicalDatasetIn(path)
    case SourceProbe => o.sourceReports(path)
  }

  const TierOrder: seq<Tier> := [NamespaceLookup, PhysicalDatasetInPath, SourceProbe]

  /** The verdict together with the tiers that were asked, in order. */
  datatype Verdict = Verdict(found: bool, consulted: seq<Tier>)

  function ContainerExists(o: Oracles, path: NamespaceKey): (v: Verdict)
    // inside a source: true iff some tier says so
    ensures o.underSource(path) ==> (v.found <==> exists t :: Ask(o, t, path))
    // elsewhere: the namespace lookup alone decides
    ensures !o.underSource(path) ==> v == Verdict(o.namespaceHas(path), [NamespaceLookup])
    // the tiers asked are a non-empty prefix of the fixed order
    ensures 1 <= |v.consulted| <= |TierOrder| && v.consulted == TierOrder[..|v.consulted|]
    // every tier asked before the last one said no ...
    ensures forall i | 0 <= i < |v.consulted| - 1 :: !Ask(o, v.consulted[i], path)
    // ... and the last one asked gives the verdict
    ensures v.found == Ask(o, v.consulted[|v.consulted| - 1], path)
  {
    if o.namespaceHas(path) then
      assert Ask(o, NamespaceLookup, path);
      Verdict(true, [NamespaceLookup])
    else if !o.underSource(path) then
      Verdict(false, [NamespaceLookup])
    else if o.physicalDatasetIn(path) then
      assert Ask(o, PhysicalDatasetInPath, path);
      Verdict(true, [NamespaceLookup, PhysicalDatasetInPath])
    else
      assert o.sourceReports(path) ==> Ask(o, SourceProbe, path);
      Verdict(o.sourceReports(path), TierOrder)
  }

  /**
   * Short-circuit: the dataset check runs only for a path in a source whose
   * lookup failed; the source probe only when, in addition, the dataset check failed.
   */
  lemma TierAskedOnlyAfterEarlierFailures(o: Oracles, path: NamespaceKey)
    ensures PhysicalDatasetInPath in ContainerExists(o, path).consulted <==>
              o.underSource(path) && !o.namespaceHas(path)
    ensures SourceProbe in ContainerExists(o, path).consulted <==>
              o.underSource(path) && !o.namespaceHas(path) && !o.physicalDatasetIn(path)
  {
  }

  /** A folder in a source known only to the underlying storage system is still found, after all three tiers. */
  lemma OnlySourceKnows(o: Oracles, path: NamespaceKey)
    requires o.underSource(path)
    requires !o.namespaceHas(path) && !o.physicalDatasetIn(path) && o.sourceReports(path)
    ensures ContainerExists(o, path) == Verdict(true, TierOrder)
  {
  }

  /**
   * The answer is false only when the lookup failed and, for a path in a
   * source, all three tiers were asked and all said no.
   */
  lemma NotFoundMeansAllAsked(o: Oracles, path: NamespaceKey)
    requires !ContainerExists(o, path).found
    ensures !o.namespaceHas(path)
    ensures o.underSource(path) ==> ContainerExists(o, path).consulted == TierOrder && forall t :: !Ask(o, t, path)
  {
  }
}
