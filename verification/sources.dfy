/**
 * The source registry: persisted source configurations keyed by name, each
 * with an optimistic-concurrency version, and the cached state of every live
 * source. Each operation is all-or-nothing: a failed call leaves both maps
 * exactly as they were.
 */
module Sources {
  import opened Wrappers

  datatype SourceStatus = Good | Warn | Bad

  /** The cached health of a live source. */
  datatype SourceState = SourceState(status: SourceStatus, messages: seq<string>)

  /**
   * A source configuration. `version` is the tag: `None` means "not yet
   * persisted"; the registry stores 0 on creation and adds 1 on every update.
   */
  datatype SourceConfig = SourceConfig(
    name: string,
    connectorType: string,
    settings: map<string, string>,
    version: Option<nat>)

  /** What starting the connection for a new source produced. */
  datatype StartResult = StartFailed(cause: string) | Started(state: SourceState)

  datatype SourceError =
    | AlreadyExists      // a source of that name is already persisted
    | VersionSupplied    // create was given a config that already carries a version
    | ConnectorFailure(cause: string) // the connection did not start, for the connector's reason
    | BadStateAfterStart // started, but reported a bad state while state checking is on
    | NotFound           // no source of that name
    | VersionConflict    // the supplied version is not the persisted one

  datatype Outcome = Ok | Failed(error: SourceError)

  datatype Registry = Registry(sources: map<string, SourceConfig>, states: map<string, SourceState>)
  {
    /** One persisted config per name, filed under its own name and versioned; a cached state for each. */
    ghost predicate Valid() {
      (forall n | n in sources :: sources[n].name == n && sources[n].version.Some?)
      && sources.Keys == states.Keys
    }
  }

  /** The registry after a call, and how the call ended. */
  datatype Transition = Transition(outcome: Outcome, next: Registry)

  const EmptyRegistry := Registry(map[], map[])

  /** Two registries that agree on every source except `name`. */
  ghost predicate SameElsewhere(a: Registry, b: Registry, name: string) {
    a.sources - {name} == b.sources - {name} && a.states - {name} == b.states - {name}
  }

  /**
   * createSource: persist and start a new source. Nothing is left behind when
   * the name is taken, a version is supplied, the start fails, or (with state
   * checking on) the started source reports a bad state.
   */
  function Create(reg: Registry, config: SourceConfig, start: StartResult, checkState: bool): (t: Transition)
    ensures t.outcome.Failed? ==> t.next == reg
    ensures t.outcome == Ok <==>
              config.name !in reg.sources && config.version.None? && start.Started?
              && !(checkState && start.state.status == Bad)
    ensures config.name in reg.sources ==> t.outcome == Failed(AlreadyExists)
    ensures config.name !in reg.sources && config.version.Some? ==> t.outcome == Failed(VersionSupplied)
    ensures config.name !in reg.sources && config.version.None? && start.StartFailed? ==>
              t.outcome == Failed(ConnectorFailure(start.cause))
    ensures config.name !in reg.sources && config.version.None? && start.Started? && checkState
            && start.state.status == Bad
            ==> t.outcome == Failed(BadStateAfterStart)
    ensures t.outcome == Ok ==>
              t.next.sources.Keys == reg.sources.Keys + {config.name}
              && config.name in t.next.states
              && t.next.sources[config.name] == config.(version := Some(0))
              && t.next.states[config.name] == start.state
              && SameElsewhere(reg, t.next, config.name)
    ensures reg.Valid() ==> t.next.Valid()
  {
    if config.name in reg.sources then Transition(Failed(AlreadyExists), reg)
    else if config.version.Some? then Transition(Failed(VersionSupplied), reg)
    else match start
      case StartFailed(cause) => Transition(Failed(ConnectorFailure(cause)), reg)
      case Started(state) =>
        if checkState && state.status == Bad then Transition(Failed(BadStateAfterStart), reg)
        else Transition(Ok, Registry(reg.sources[config.name := config.(version := Some(0))],
                                     reg.states[config.name := state]))
  }

  /** The supplied version matches the persisted one; a missing version never matches. */
  predicate VersionMatches(reg: Registry, config: SourceConfig)
    requires config.name in reg.sources
  {
    config.version.Some? && config.version == reg.sources[config.name].version
  }

  /**
   * updateSource: replace an existing source's config, provided the caller
   * holds the current version; the stored version moves on by one.
   */
  function Update(reg: Registry, config: SourceConfig): (t: Transition)
    ensures t.outcome.Failed? ==> t.next == reg
    ensures t.outcome == Ok <==> config.name in reg.sources && VersionMatches(reg, config)
    ensures config.name !in reg.sources ==> t.outcome == Failed(NotFound)
    ensures config.name in reg.sources && !VersionMatches(reg, config) ==> t.outcome == Failed(VersionConflict)
    ensures t.outcome == Ok ==>
              t.next.sources.Keys == reg.sources.Keys
              && t.next.sources[config.name] == config.(version := Some(config.version.value + 1))
              && t.next.states == reg.states
              && SameElsewhere(reg, t.next, config.name)
    ensures reg.Valid() ==> t.next.Valid()
  {
    if config.name !in reg.sources then Transition(Failed(NotFound), reg)
    else if !VersionMatches(reg, config) then Transition(Failed(VersionConflict), reg)
    else Transition(Ok, reg.(sources := reg.sources[config.name := config.(version := Some(config.version.value + 1))]))
  }

  /**
   * deleteSource: remove a source, provided it exists and the caller holds
   * its current version; its cached state goes with it.
   */
  function Delete(reg: Registry, config: SourceConfig): (t: Transition)
    ensures t.outcome.Failed? ==> t.next == reg
    ensures t.outcome == Ok <==> config.name in reg.sources && VersionMatches(reg, config)
    ensures config.name !in reg.sources ==> t.outcome == Failed(NotFound)
    ensures config.name in reg.sources && !VersionMatches(reg, config) ==> t.outcome == Failed(VersionConflict)
    ensures t.outcome == Ok ==>
              config.name !in t.next.sources && config.name !in t.next.states
              && t.next.sources.Keys == reg.sources.Keys - {config.name}
              && SameElsewhere(reg, t.next, config.name)
    ensures reg.Valid() ==> t.next.Valid()
  {
    if config.name !in reg.sources then Transition(Failed(NotFound), reg)
    else if !VersionMatches(reg, config) then Transition(Failed(VersionConflict), reg)
    else Transition(Ok, Registry(reg.sources - {config.name}, reg.states - {config.name}))
  }

  /** getSourceState on a registry value: the cached state, or `None` for an unknown name. */
  function StateOf(reg: Registry, name: string): (r: Option<SourceState>)
    requires reg.Valid()
    ensures r.None? <==> name !in reg.sources
    ensures r.Some? ==> name in reg.states && r.value == reg.states[name]
  {
    if name in reg.states then Some(reg.states[name]) else None
  }

  /** A second create under a name that was just created is rejected and changes nothing. */
  lemma CreateTwiceRejected(reg: Registry, first: SourceConfig, start: StartResult, checkState: bool,
                            second: SourceConfig, start2: StartResult, checkState2: bool)
    requires Create(reg, first, start, checkState).outcome == Ok
    requires second.name == first.name
    ensures var after := Create(reg, first, start, checkState).next;
            Create(after, second, start2, checkState2) == Transition(Failed(AlreadyExists), after)
  {
  }

  /** Editing a freshly created source once, with the config read back from the registry, yields version 1. */
  lemma FirstEditGivesVersionOne(reg: Registry, config: SourceConfig, start: StartResult, checkState: bool,
                                 newSettings: map<string, string>)
    requires Create(reg, config, start, checkState).outcome == Ok
    ensures var created := Create(reg, config, start, checkState).next;
            var edit := created.sources[config.name].(settings := newSettings);
            Update(created, edit).outcome == Ok
            && Update(created, edit).next.sources[config.name].version == Some(1)
  {
  }

  /** Once an update succeeded, the config it used is stale: updating or deleting with it again fails. */
  lemma StaleVersionRejected(reg: Registry, config: SourceConfig, again: SourceConfig)
    requires Update(reg, config).outcome == Ok
    requires again.name == config.name && again.version == config.version
    ensures var after := Update(reg, config).next;
            Update(after, again) == Transition(Failed(VersionConflict), after)
            && Delete(after, again) == Transition(Failed(VersionConflict), after)
  {
  }

  /** Deleting a just-created source with the config read back restores the registry exactly. */
  lemma DeleteUndoesCreate(reg: Registry, config: SourceConfig, start: StartResult, checkState: bool)
    requires reg.Valid()
    requires Create(reg, config, start, checkState).outcome == Ok
    ensures var created := Create(reg, config, start, checkState).next;
            Delete(created, created.sources[config.name]) == Transition(Ok, reg)
  {
  }

  /** After a successful delete, the source state lookup reports the name as unknown. */
  lemma DeletedSourceHasNoState(reg: Registry, config: SourceConfig)
    requires reg.Valid() && Delete(reg, config).outcome == Ok
    ensures StateOf(Delete(reg, config).next, config.name) == None
  {
  }

  /**
   * The registry behind every catalog: persisted configs and cached states,
   * updated in place by the lifecycle calls.
   */
  class SourceManager {
    var sources: map<string, SourceConfig>
    var states: map<string, SourceState>

    function Model(): Registry
      reads this
    {
      Registry(sources, states)
    }

    ghost predicate Valid()
      reads this
    {
      Model().Valid()
    }

    constructor ()
      ensures Valid() && Model() == EmptyRegistry
    {
      sources := map[];
      states := map[];
    }

    method CreateSource(config: SourceConfig, start: StartResult, checkState: bool) returns (outcome: Outcome)
      requires Valid()
      modifies this
      ensures Valid()
      ensures Transition(outcome, Model()) == Create(old(Model()), config, start, checkState)
    {
      if config.name in sources {
        return Failed(AlreadyExists);
      }
      if config.version.Some? {
        return Failed(VersionSupplied);
      }
      if start.StartFailed? {
        return Failed(ConnectorFailure(start.cause));
      }
      if checkState && start.state.status == Bad {
        return Failed(BadStateAfterStart);
      }
      sources := sources[config.name := config.(version := Some(0))];
      states := states[config.name := start.state];
      outcome := Ok;
    }

    method UpdateSource(config: SourceConfig) returns (outcome: Outcome)
      requires Valid()
      modifies this
      ensures Valid()
      ensures Transition(outcome, Model()) == Update(old(Model()), config)
    {
      if config.name !in sources {
        return Failed(NotFound);
      }
      var current := sources[config.name];
      if config.version.None? || config.version != current.version {
        return Failed(VersionConflict);
      }
      sources := sources[config.name := config.(version := Some(config.version.value + 1))];
      outcome := Ok;
    }

    method DeleteSource(config: SourceConfig) returns (outcome: Outcome)
      requires Valid()
      modifies this
      ensures Valid()
      ensures Transition(outcome, Model()) == Delete(old(Model()), config)
    {
      if config.name !in sources {
        return Failed(NotFound);
      }
      if config.version.None? || config.version != sources[config.name].version {
        return Failed(VersionConflict);
      }
      sources := sources - {config.name};
      states := states - {config.name};
      outcome := Ok;
    }

    /** getSourceState: the last cached state, `None` when the source is unknown. */
    function GetSourceState(name: string): (r: Option<SourceState>)
      reads this
      requires Valid()
      ensures r.None? <==> name !in sources
      ensures r.Some? ==> r.value == states[name]
    {
      StateOf(Model(), name)
    }
  }
}
