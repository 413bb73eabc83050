/**
 * Properties of the source registry over any sequence of lifecycle calls, not
 * just one: the registry invariant always holds, calls about other sources
 * leave a source alone, and a source's version counts its successful edits.
 */
module SourceTraces {
  import opened Wrappers
  import opened Sources

  /** One lifecycle call, with the start-up result and the state-check option as inputs. */
  datatype Call =
    | CreateCall(config: SourceConfig, start: StartResult, checkState: bool)
    | UpdateCall(config: SourceConfig)
    | DeleteCall(config: SourceConfig)

  function Apply(reg: Registry, call: Call): Transition {
    match call
    case CreateCall(config, start, checkState) => Create(reg, config, start, checkState)
    case UpdateCall(config) => Update(reg, config)
    case DeleteCall(config) => Delete(reg, config)
  }

  /** The registry after the calls, applied one after the other. */
  function Run(reg: Registry, calls: seq<Call>): Registry
    decreases |calls|
  {
    if calls == [] then reg else Run(Apply(reg, calls[0]).next, calls[1..])
  }

  /** How many of the calls are successful updates of source `name`. */
  function EditsOf(reg: Registry, calls: seq<Call>, name: string): nat
    decreases |calls|
  {
    if calls == [] then 0
    else
      var t := Apply(reg, calls[0]);
      (if calls[0].UpdateCall? && calls[0].config.name == name && t.outcome == Ok then 1 else 0)
      + EditsOf(t.next, calls[1..], name)
  }

  /** No call in the sequence successfully deletes source `name`. */
  predicate NeverDeleted(reg: Registry, calls: seq<Call>, name: string)
    decreases |calls|
  {
    calls == []
    || (var t := Apply(reg, calls[0]);
        !(calls[0].DeleteCall? && calls[0].config.name == name && t.outcome == Ok)
        && NeverDeleted(t.next, calls[1..], name))
  }

  /** At most one versioned config per name, with a cached state for each, after any sequence of calls. */
  lemma {:induction false} RunPreservesValid(reg: Registry, calls: seq<Call>)
    requires reg.Valid()
    ensures Run(reg, calls).Valid()
    decreases |calls|
  {
    if calls != [] {
      RunPreservesValid(Apply(reg, calls[0]).next, calls[1..]);
    }
  }

  /** Calls that name other sources leave the config and the cached state of `name` as they were. */
  lemma {:induction false} OtherCallsLeaveSourceAlone(reg: Registry, calls: seq<Call>, name: string)
    requires forall i | 0 <= i < |calls| :: calls[i].config.name != name
    ensures name in Run(reg, calls).sources <==> name in reg.sources
    ensures name in reg.sources ==> Run(reg, calls).sources[name] == reg.sources[name]
    ensures name in Run(reg, calls).states <==> name in reg.states
    ensures name in reg.states ==> Run(reg, calls).states[name] == reg.states[name]
    decreases |calls|
  {
    if calls != [] {
      var t := Apply(reg, calls[0]);
      StepLeavesOtherAlone(reg, calls[0], name);
      OtherCallsLeaveSourceAlone(t.next, calls[1..], name);
    }
  }

  /** One call about another source does not touch `name`. */
  lemma StepLeavesOtherAlone(reg: Registry, call: Call, name: string)
    requires call.config.name != name
    ensures var next := Apply(reg, call).next;
            (name in next.sources <==> name in reg.sources)
            && (name in reg.sources ==> next.sources[name] == reg.sources[name])
            && (name in next.states <==> name in reg.states)
            && (name in reg.states ==> next.states[name] == reg.states[name])
  {
    var t := Apply(reg, call);
    if t.outcome == Ok {
      var other := call.config.name;
      assert SameElsewhere(reg, t.next, other);
      assert name in reg.sources ==> (reg.sources - {other})[name] == reg.sources[name];
      assert name in t.next.sources ==> (t.next.sources - {other})[name] == t.next.sources[name];
      assert name in reg.states ==> (reg.states - {other})[name] == reg.states[name];
      assert name in t.next.states ==> (t.next.states - {other})[name] == t.next.states[name];
    }
  }

  /**
   * A registered source that is never deleted stays registered, and its version
   * is its starting version plus the number of successful edits: every edit
   * moves the tag on by exactly one, and nothing else moves it.
   */
  lemma {:induction false} VersionCountsEdits(reg: Registry, calls: seq<Call>, name: string)
    requires reg.Valid() && name in reg.sources
    requires NeverDeleted(reg, calls, name)
    ensures name in Run(reg, calls).sources
    ensures Run(reg, calls).sources[name].version.Some?
    ensures Run(reg, calls).sources[name].version.value == reg.sources[name].version.value + EditsOf(reg, calls, name)
    decreases |calls|
  {
    if calls != [] {
      var call := calls[0];
      var t := Apply(reg, call);
      if call.config.name == name {
        if call.UpdateCall? && t.outcome == Ok {
          assert t.next.sources[name].version.value == reg.sources[name].version.value + 1;
        } else {
          assert t.next == reg;
        }
      } else {
        StepLeavesOtherAlone(reg, call, name);
      }
      VersionCountsEdits(t.next, calls[1..], name);
    }
  }

  /** A source created with one call and edited by k successful updates after it carries version k. */
  lemma CreatedThenEdited(reg: Registry, config: SourceConfig, start: StartResult, checkState: bool, calls: seq<Call>)
    requires reg.Valid()
    requires Create(reg, config, start, checkState).outcome == Ok
    requires NeverDeleted(Create(reg, config, start, checkState).next, calls, config.name)
    ensures var created := Create(reg, config, start, checkState).next;
            config.name in Run(created, calls).sources
            && Run(created, calls).sources[config.name].version == Some(EditsOf(created, calls, config.name))
  {
    VersionCountsEdits(Create(reg, config, start, checkState).next, calls, config.name);
  }
}
