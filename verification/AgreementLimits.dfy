/** Exactly when a live process ends on the configuration of the active revision. */
module AgreementLimits {
  import opened Ordering
  import opened Domain
  import opened CaddyConfig
  import opened CaddyRuntime
  import opened RuntimeProperties
  import opened CompilerSpec
  import opened Tables
  import opened Database
  import opened Revisions
  import opened RevisionProperties
  import opened ApplySpec
  import opened ApplyProperties
  import opened RuntimeAgreement
  import opened ApplyAgreement
  import ApplyRuns
  import Identity
  import Snapshot

  // ----- one activation ---------------------------------------------------------------------------

  function EnvironmentAfter(rt: Runtime, changed: bool, env: Environment, a: Activation): Environment {
    if Reloads(rt, changed, a) then rt.environment else env
  }

  /** Nothing lives, or a failed activation changed nothing and one that worked was followed up. */
  predicate Settles(rt: Runtime, changed: bool, a: Activation, followed: bool) {
    Stale(rt) || (Harmless(rt, changed, a) && (Succeeds(rt, changed, a) ==> followed))
  }

  ghost predicate Alive(rt: Runtime, config: Config) {
    OneChild(rt) && rt.command.Some? && Current(rt).alive && Current(rt).config == config
  }

  /** What an activation leaves: on success the new configuration, alive; on failure the old one, unless a reload
      that reported failure took effect. */
  ghost predicate Leaves(rt: Runtime, changed: bool, config: Config, env: Environment, previous: Config, a: Activation,
                         after: Runtime, failure: Option<ErrorCode>) {
    && (failure.None? <==> Succeeds(rt, changed, a))
    && if failure.None? then Alive(after, config) && after.environment == EnvironmentAfter(rt, changed, env, a)
       else Serves(after, Some(previous)) <==> Harmless(rt, changed, a)
  }

  lemma WorksHarmlessly(rt: Runtime, changed: bool, a: Activation)
    requires Succeeds(rt, changed, a)
    ensures Harmless(rt, changed, a)
  {
  }

  lemma OnlyCurrent(rt: Runtime, config: Config, c: Config)
    requires Alive(rt, config)
    ensures Serves(rt, Some(c)) <==> config == c
  {
  }

  lemma StartOutcomeOf(rt: Runtime, config: Config, env: Environment, s: StartOutcome)
    requires OneChild(rt) && !Running(rt)
    ensures var (after, failure) := Started(rt, config, env, s);
            && (failure.None? <==> Starts(s))
            && if failure.None? then Alive(after, config) && after.environment == env else NoneAlive(after)
  {
    StartOneChild(rt, config, env, s);
    StartedRuns(rt, config, env, s);
  }

  lemma IdleLeaves(rt: Runtime, config: Config, env: Environment, changed: bool, previous: Config, was: Environment, a: Activation)
    requires OneChild(rt) && !Running(rt)
    ensures var (after, failure) := Activated(rt, config, env, changed, Some(previous), was, a);
            Leaves(rt, changed, config, env, previous, a, after, failure)
  {
    hide OneChild;
    hide Alive;
    hide Started;
    hide Starts;
    var gone := Observed(rt, a.health).0;
    assert gone == Observed(rt, a.restartHealth).0 == Observed(gone, a.health).0;
    ObserveOneChild(rt, a.health);
    StartOutcomeOf(gone, config, env, a.start);
    var after := Started(gone, config, env, a.start).0;
    if !Starts(a.start) { DeadServes(after, Some(previous)); }
  }

  lemma ReplaceLeaves(rt: Runtime, config: Config, env: Environment, previous: Config, was: Environment, a: Activation)
    requires OneChild(rt) && Running(rt) && !Stale(rt) && Serves(rt, Some(previous)) && a.restartHealth
    ensures var (after, failure) := Activated(rt, config, env, true, Some(previous), was, a);
            Leaves(rt, true, config, env, previous, a, after, failure)
  {
    hide Alive;
    hide Started;
    hide Starts;
    var (stopped, problem) := StoppedBy(rt, a.stop);
    StopServes(rt, a.stop, Some(previous));
    assert problem.None? <==> Ends(a.stop);
    ReplaceServes(rt, config, env, Some(previous), was, a);
    if problem.None? { StartOutcomeOf(stopped, config, env, a.start); }
  }

  lemma ReloadLeaves(rt: Runtime, config: Config, env: Environment, changed: bool, previous: Config, was: Environment, a: Activation)
    requires OneChild(rt) && !Stale(rt) && Serves(rt, Some(previous)) && config != previous && Reloads(rt, changed, a)
    ensures var (after, failure) := Activated(rt, config, env, changed, Some(previous), was, a);
            Leaves(rt, changed, config, env, previous, a, after, failure)
  {
    var after := Reloaded(rt, config, a.reload).0;
    ReloadOneChild(rt, config, a.reload);
    OnlyCurrent(rt, Current(rt).config, previous);
    OnlyCurrent(after, Current(after).config, previous);
  }

  lemma ActivationOutcome(rt: Runtime, config: Config, env: Environment, changed: bool, previous: Config, was: Environment, a: Activation)
    requires OneChild(rt) && !Stale(rt) && Serves(rt, Some(previous)) && config != previous
    ensures var (after, failure) := Activated(rt, config, env, changed, Some(previous), was, a);
            Leaves(rt, changed, config, env, previous, a, after, failure)
  {
    hide Leaves;
    hide Activated;
    hide OneChild;
    hide Serves;
    if !Running(rt) { IdleLeaves(rt, config, env, changed, previous, was, a); }
    else if changed && a.restartHealth { ReplaceLeaves(rt, config, env, previous, was, a); }
    else { ReloadLeaves(rt, config, env, changed, previous, was, a); }
  }

  // ----- activations that cannot disagree ---------------------------------------------------------------

  lemma ReloadStale(rt: Runtime, config: Config, o: ReloadOutcome)
    requires OneChild(rt) && Stale(rt)
    ensures OneChild(Reloaded(rt, config, o).0) && Stale(Reloaded(rt, config, o).0) && NoneAlive(Reloaded(rt, config, o).0)
  {
  }

  lemma StopStale(rt: Runtime, o: StopOutcome)
    requires OneChild(rt) && Stale(rt)
    ensures OneChild(StoppedBy(rt, o).0) && NoneAlive(StoppedBy(rt, o).0) && StoppedBy(rt, o).1.Some?
  {
  }

  /** Under a stale manager an activation never launches anything. */
  lemma StaleActivation(rt: Runtime, config: Config, env: Environment, changed: bool, previous: Option<Config>, was: Environment,
                        a: Activation)
    requires OneChild(rt) && Stale(rt)
    ensures var (after, failure) := Activated(rt, config, env, changed, previous, was, a);
            OneChild(after) && NoneAlive(after) && (failure.None? ==> Stale(after))
  {
    hide OneChild;
    hide NoneAlive;
    hide Reloaded;
    hide StoppedBy;
    hide Started;
    ReloadStale(rt, config, a.reload);
    StopStale(rt, a.stop);
  }

  lemma ReloadSame(rt: Runtime, config: Config, o: ReloadOutcome)
    requires OneChild(rt) && Serves(rt, Some(config))
    ensures OneChild(Reloaded(rt, config, o).0) && Serves(Reloaded(rt, config, o).0, Some(config))
  {
  }

  /** Activating the configuration that already runs leaves no other. */
  lemma ActivateSame(rt: Runtime, config: Config, env: Environment, changed: bool, was: Environment, a: Activation)
    requires OneChild(rt) && Serves(rt, Some(config))
    ensures var after := Activated(rt, config, env, changed, Some(config), was, a).0;
            OneChild(after) && Serves(after, Some(config))
  {
    hide OneChild;
    hide Serves;
    hide Started;
    hide Reloaded;
    hide Observed;
    hide Replace;
    var c := Some(config);
    ObserveServes(rt, a.health, c);
    ObserveServes(rt, a.restartHealth, c);
    var before, observed := Observed(rt, a.health).0, Observed(rt, a.restartHealth).0;
    ObserveServes(observed, a.health, c);
    var again := Observed(observed, a.health).0;
    ReplaceServes(observed, config, env, c, was, a);
    StartServes(before, config, env, a.start, c);
    StartServes(again, config, env, a.start, c);
    ReloadSame(before, config, a.reload);
    ReloadSame(again, config, a.reload);
  }

  /** A successful activation leaves the new configuration in any live process, whatever ran before. */
  lemma ActivatedRuns(rt: Runtime, config: Config, env: Environment, changed: bool, previous: Option<Config>, was: Environment,
                      a: Activation)
    requires OneChild(rt)
    ensures var (after, failure) := Activated(rt, config, env, changed, previous, was, a);
            OneChild(after) && (failure.None? ==> Serves(after, Some(config)))
  {
    hide OneChild;
    hide Serves;
    hide Started;
    hide Reloaded;
    hide Replace;
    NothingToServe(rt, None);
    var before, observed := Observed(rt, a.health).0, Observed(rt, a.restartHealth).0;
    ObserveServes(rt, a.health, None);
    ObserveServes(rt, a.restartHealth, None);
    var again := Observed(observed, a.health).0;
    ObserveServes(observed, a.health, None);
    ReplaceRuns(observed, config, env, previous, was, a);
    StartServes(before, config, env, a.start, None);
    StartServes(again, config, env, a.start, None);
    ReloadRuns(before, config, a.reload);
    ReloadRuns(again, config, a.reload);
  }

  lemma ReloadRuns(rt: Runtime, config: Config, o: ReloadOutcome)
    requires OneChild(rt)
    ensures OneChild(Reloaded(rt, config, o).0)
    ensures Reloaded(rt, config, o).1.None? ==> Serves(Reloaded(rt, config, o).0, Some(config))
  {
  }

  lemma ReplaceRuns(rt: Runtime, config: Config, env: Environment, previous: Option<Config>, was: Environment, a: Activation)
    requires OneChild(rt)
    ensures var (after, failure) := Replace(rt, config, env, previous, was, a);
            OneChild(after) && (failure.None? ==> Serves(after, Some(config)))
  {
    hide OneChild;
    hide Serves;
    hide Started;
    hide StoppedBy;
    NothingToServe(rt, None);
    var stopped := StoppedBy(rt, a.stop).0;
    StopServes(rt, a.stop, None);
    StartServes(stopped, config, env, a.start, None);
    if previous.Some? { StartOneChild(Started(stopped, config, env, a.start).0, previous.value, was, a.back); }
  }

  // ----- apply ----------------------------------------------------------------------------------------------

  /** A successful activation was followed by a good health check, and by the mark or an undo that took effect. */
  predicate FollowsUp(o: ApplyOracle) { o.healthAfter && (o.marks || TookEffect(o.undoReload)) }

  lemma FollowUpDecides(w: World, id: ID, created: bool, config: Config, env: Environment, changed: bool, previous: Config,
                        o: ApplyOracle, rt: Runtime)
    requires Usable(w.db, id) && config != previous && Alive(rt, config)
    requires Activated(w.rt, config, env, changed, Some(previous), w.rt.environment, o.activation) == (rt, None)
    ensures var (after, r) := ActivateAndMark(w, id, created, config, env, changed, Some(previous), o);
            Serves(after.rt, Some(if r.Success? then config else previous)) <==> FollowsUp(o)
  {
    hide Activated;
    hide Noted;
    hide MadeActive;
    hide Serves;
    OnlyCurrent(rt, config, config);
    OnlyCurrent(rt, config, previous);
    var undone := Reloaded(rt, previous, o.undoReload).0;
    ReloadOneChild(rt, previous, o.undoReload);
    OnlyCurrent(undone, Current(undone).config, previous);
  }

  lemma StaleApply(w: World, id: ID, created: bool, config: Config, env: Environment, changed: bool, previous: Config, o: ApplyOracle)
    requires OneChild(w.rt) && Stale(w.rt) && id in w.db.revisions
    ensures var (after, r) := ActivateAndMark(w, id, created, config, env, changed, Some(previous), o);
            Serves(after.rt, Some(if r.Success? then config else previous))
  {
    hide Activated;
    hide Noted;
    hide MadeActive;
    hide OneChild;
    StaleActivation(w.rt, config, env, changed, Some(previous), w.rt.environment, o.activation);
    var (rt, failure) := Activated(w.rt, config, env, changed, Some(previous), w.rt.environment, o.activation);
    if failure.None? { ReloadStale(rt, previous, o.undoReload); }
    hide Reloaded;
  }

  /** From a process that runs the active configuration, or none, activating another configuration leaves the
      then active one in any live process exactly when it settles. */
  lemma ActivationDecides(w: World, id: ID, created: bool, config: Config, env: Environment, changed: bool, previous: Config,
                          o: ApplyOracle)
    requires OneChild(w.rt) && Serves(w.rt, Some(previous)) && config != previous && Usable(w.db, id)
    ensures var (after, r) := ActivateAndMark(w, id, created, config, env, changed, Some(previous), o);
            Serves(after.rt, Some(if r.Success? then config else previous)) <==>
            Settles(w.rt, changed, o.activation, FollowsUp(o))
  {
    hide Serves;
    hide FollowsUp;
    hide Stale;
    hide Harmless;
    hide Succeeds;
    hide OneChild;
    if Stale(w.rt) {
      StaleApply(w, id, created, config, env, changed, previous, o);
    } else {
      var (rt, failure) := Activated(w.rt, config, env, changed, Some(previous), w.rt.environment, o.activation);
      ActivationOutcome(w.rt, config, env, changed, previous, w.rt.environment, o.activation);
      if failure.None? {
        WorksHarmlessly(w.rt, changed, o.activation);
        FollowUpDecides(w, id, created, config, env, changed, previous, o, rt);
      }
      hide Activated;
    }
  }

  /** With the configuration that already runs nothing can disagree. */
  lemma MarkSame(w: World, id: ID, created: bool, config: Config, env: Environment, changed: bool, o: ApplyOracle)
    requires OneChild(w.rt) && Serves(w.rt, Some(config)) && id in w.db.revisions
    ensures Serves(ActivateAndMark(w, id, created, config, env, changed, Some(config), o).0.rt, Some(config))
  {
    hide OneChild;
    hide Serves;
    hide Activated;
    hide Reloaded;
    hide Observed;
    ActivateSame(w.rt, config, env, changed, w.rt.environment, o.activation);
    var rt := Activated(w.rt, config, env, changed, Some(config), w.rt.environment, o.activation).0;
    ObserveServes(rt, o.healthAfter, Some(config));
    ReloadSame(Observed(rt, o.healthAfter).0, config, o.undoReload);
  }

  lemma FinishSame(w: World, id: ID, created: bool, config: Config, hash: ConfigHash, env: Environment, previous: Revision, o: ApplyOracle)
    requires OneChild(w.rt) && Serves(w.rt, Some(config)) && previous.json == config && id in w.db.revisions
    ensures Serves(Finished(w, id, created, config, hash, env, Some(previous), o).0.rt, Some(config))
  {
    hide OneChild;
    hide Serves;
    hide ActivateAndMark;
    hide Observed;
    hide EnvironmentChanged;
    AskServes(w.rt, env, Some(config));
    var (asked, changed) := EnvironmentChanged(w.rt, env);
    ObserveServes(asked, o.health, Some(config));
    MarkSame(w.(rt := asked), id, created, config, env, changed, o);
    MarkSame(w.(rt := Observed(asked, o.health).0), id, created, config, env, changed, o);
  }

  /** A successful activation runs the configuration, whatever went before. */
  lemma FinishRuns(w: World, id: ID, created: bool, config: Config, hash: ConfigHash, env: Environment,
                   previous: Option<Revision>, o: ApplyOracle)
    requires OneChild(w.rt) && id in w.db.revisions
    requires previous.Some? && previous.value.configHash == hash ==> Serves(w.rt, Some(config))
    ensures var (after, r) := Finished(w, id, created, config, hash, env, previous, o);
            r.Success? ==> Serves(after.rt, Some(config)) && Running(after.rt)
  {
    hide OneChild;
    hide Serves;
    hide ActivateAndMark;
    hide EnvironmentChanged;
    hide Observed;
    hide Running;
    NothingToServe(w.rt, None);
    AskServes(w.rt, env, None);
    var (asked, changed) := EnvironmentChanged(w.rt, env);
    ObserveServes(asked, o.health, None);
    MarkRuns(w.(rt := asked), id, created, config, env, changed, OptionalConfig(previous), o);
    MarkRuns(w.(rt := Observed(asked, o.health).0), id, created, config, env, changed, OptionalConfig(previous), o);
    if Serves(w.rt, Some(config)) {
      AskServes(w.rt, env, Some(config));
      ObserveServes(asked, o.health, Some(config));
    }
  }

  lemma MarkRuns(w: World, id: ID, created: bool, config: Config, env: Environment, changed: bool, previous: Option<Config>,
                 o: ApplyOracle)
    requires OneChild(w.rt) && id in w.db.revisions
    ensures var (after, r) := ActivateAndMark(w, id, created, config, env, changed, previous, o);
            r.Success? ==> Serves(after.rt, Some(config)) && Running(after.rt)
  {
    hide OneChild;
    hide Serves;
    hide Activated;
    hide Reloaded;
    hide StoppedBy;
    hide Observed;
    hide Running;
    ActivatedRuns(w.rt, config, env, changed, previous, w.rt.environment, o.activation);
    var rt := Activated(w.rt, config, env, changed, previous, w.rt.environment, o.activation).0;
    if Serves(rt, Some(config)) { ObserveServes(rt, o.healthAfter, Some(config)); }
  }

  lemma FinishDecides(w: World, id: ID, created: bool, config: Config, hash: ConfigHash, env: Environment,
                      previous: Option<Revision>, o: ApplyOracle)
    requires OneChild(w.rt) && Serves(w.rt, OptionalConfig(previous)) && Usable(w.db, id)
    requires previous.Some? ==> (previous.value.configHash == hash <==> previous.value.json == config)
    ensures var (after, r) := Finished(w, id, created, config, hash, env, previous, o);
            Serves(after.rt, if r.Success? then Some(config) else OptionalConfig(previous)) <==>
              (previous.Some? && previous.value.json != config ==>
                 var (asked, changed) := EnvironmentChanged(w.rt, env); Settles(asked, changed, o.activation, FollowsUp(o)))
  {
    hide OneChild;
    hide Serves;
    hide ActivateAndMark;
    hide Settles;
    hide EnvironmentChanged;
    hide Observed;
    var (after, r) := Finished(w, id, created, config, hash, env, previous, o);
    if previous.None? {
      FinishRuns(w, id, created, config, hash, env, None, o);
      NothingToServe(after.rt, None);
    } else if previous.value.json == config {
      FinishSame(w, id, created, config, hash, env, previous.value, o);
    } else {
      AskServes(w.rt, env, OptionalConfig(previous));
      var (asked, changed) := EnvironmentChanged(w.rt, env);
      ActivationDecides(w.(rt := asked), id, created, config, env, changed, previous.value.json, o);
    }
  }

  /** Another configuration is to be activated only in a way that settles. */
  ghost predicate ApplySettles(w: World, o: ApplyOracle) {
    Records(w, o) && ActiveRevision(w.db).Some? && ActiveRevision(w.db).value.json != Compiled(Load(w.db.tables)).json ==>
      var (asked, changed) := EnvironmentChanged(w.rt, o.environment.value);
      Settles(asked, changed, o.activation, FollowsUp(o))
  }

  /** After an apply a live process runs the configuration of the active revision, exactly unless another configuration
      was to be activated and the activation did not settle. */
  lemma ApplyDecides(w: World, o: ApplyOracle, born: Births)
    requires Invariant(w.db, born) && GoodLanding(o.before, born) && GoodLanding(o.after, born)
    requires OneChild(w.rt) && Agree(w)
    ensures Agree(Apply(w, o).0) <==> ApplySettles(w, o)
  {
    hide Sane;
    hide GoodRows;
    hide Finished;
    hide Snapshot.Valid;
    hide Compilable;
    hide Compiled;
    hide Load;
    hide Record;
    hide Invariant;
    hide OneChild;
    hide Serves;
    hide Settles;
    hide EnvironmentChanged;
    hide Identity.IdentityOf;
    hide ActiveRevision;
    hide Follows;
    hide Keeps;
    hide UpToDate;
    ApplyActive(w, o, born);
    if Records(w, o) {
      var x, previous := Load(w.db.tables), ActiveRevision(w.db);
      var r := Record(Landed(w.db, o.before), x, o);
      ApplyKeeps(w, o, born);
      LandedKeeps(w.db, o.before, born);
      LoadedBorn(w.db, born);
      RecordKeeps(Landed(w.db, o.before), x, o, born);
      if previous.Some? { HashesTell(w.db, x, born); }
      FinishDecides(World(Landed(r.db, o.after), w.rt), r.id, r.created, Compiled(x).json, Compiled(x).sha256,
                    o.environment.value, previous, o);
    }
  }

  lemma NotStaleAlive(rt: Runtime, config: Config)
    requires OneChild(rt) && Running(rt) && !Stale(rt) && Serves(rt, Some(config))
    ensures Alive(rt, config)
  {
  }

  /** After a successful apply the returned revision is alive, whatever the calls answered on the way, unless the
      manager is stale and nothing lives. */
  lemma SuccessRuns(w: World, o: ApplyOracle, born: Births)
    requires Invariant(w.db, born) && GoodLanding(o.before, born) && GoodLanding(o.after, born)
    requires OneChild(w.rt) && Agree(w) && Apply(w, o).1.Success?
    ensures var (after, r) := Apply(w, o);
            && Agree(after) && Running(after.rt) && Serves(after.rt, Some(r.value.revision.json))
            && (!Stale(after.rt) ==> Alive(after.rt, r.value.revision.json))
  {
    hide Sane;
    hide GoodRows;
    hide Finished;
    hide Snapshot.Valid;
    hide Compilable;
    hide Compiled;
    hide Load;
    hide Record;
    hide Invariant;
    hide OneChild;
    hide Serves;
    hide Running;
    hide Identity.IdentityOf;
    hide ActiveRevision;
    hide Follows;
    hide Keeps;
    hide UpToDate;
    ApplyActive(w, o, born);
    ApplyKeeps(w, o, born);
    var x, previous := Load(w.db.tables), ActiveRevision(w.db);
    var r := Record(Landed(w.db, o.before), x, o);
    RecordStored(Landed(w.db, o.before), x, o);
    if previous.Some? { HashesTell(w.db, x, born); }
    FinishRuns(World(Landed(r.db, o.after), w.rt), r.id, r.created, Compiled(x).json, Compiled(x).sha256,
               o.environment.value, previous, o);
    ApplyOneChild(w, o);
    if !Stale(Apply(w, o).0.rt) { NotStaleAlive(Apply(w, o).0.rt, Compiled(x).json); }
  }

  lemma HashesTell(db: Db, x: State, born: Births)
    requires Invariant(db, born) && Compilable(x) && ActiveRevision(db).Some?
    ensures ActiveRevision(db).value.configHash == Compiled(x).sha256 <==> ActiveRevision(db).value.json == Compiled(x).json
  {
    hide GoodRows;
    hide Compilable;
    hide Compiled;
    CompiledHash(x);
    hide Sane;
    SaneJson(ActiveRevision(db).value, born);
  }

  // ----- restore -----------------------------------------------------------------------------------------------

  /** After a failed write, the compensating calls reach the process. */
  predicate Reverts(was: Environment, now: Environment, o: RestoreOracle) {
    if o.undoHealth && was != map[] && !SameEnvironment(now, was)
    then o.undoStop.accepted && !o.undoStop.shutdown.Cancelled?
    else TookEffect(o.undoReload)
  }

  predicate Returns(was: Environment, now: Environment, o: RestoreOracle) {
    o.healthAfter && o.stamp != 0 && (o.writes || Reverts(was, now, o))
  }

  lemma PutBackDecides(rt: Runtime, config: Config, previous: Config, was: Environment, o: RestoreOracle)
    requires Alive(rt, config) && config != previous
    ensures Serves(PutBack(rt, Some(previous), was, o), Some(previous)) <==> Reverts(was, rt.environment, o)
  {
    hide SameEnvironment;
    if o.undoHealth && was != map[] && !SameEnvironment(rt.environment, was) {
      PutBackByRestart(rt, config, previous, was, o);
    } else {
      var undone := Reloaded(rt, previous, o.undoReload).0;
      assert PutBack(rt, Some(previous), was, o) == undone;
      ReloadOneChild(rt, previous, o.undoReload);
      OnlyCurrent(undone, Current(undone).config, previous);
    }
  }

  lemma PutBackByRestart(rt: Runtime, config: Config, previous: Config, was: Environment, o: RestoreOracle)
    requires Alive(rt, config) && config != previous
    requires o.undoHealth && was != map[] && !SameEnvironment(rt.environment, was)
    ensures Serves(PutBack(rt, Some(previous), was, o), Some(previous)) <==>
            o.undoStop.accepted && !o.undoStop.shutdown.Cancelled?
  {
    hide SameEnvironment;
    var stopped := StoppedBy(rt, o.undoStop).0;
    assert PutBack(rt, Some(previous), was, o) == Started(stopped, previous, was, o.undoStart).0;
    if o.undoStop.accepted && !o.undoStop.shutdown.Cancelled? {
      StoppedEnds(rt, o.undoStop, Some(previous));
      StartServes(stopped, previous, was, o.undoStart, Some(previous));
    } else {
      assert Alive(stopped, config) && Running(stopped);
      OnlyCurrent(stopped, config, previous);
    }
  }

  lemma PutBackStale(rt: Runtime, previous: Config, was: Environment, o: RestoreOracle)
    requires OneChild(rt) && Stale(rt)
    ensures Serves(PutBack(rt, Some(previous), was, o), Some(previous))
  {
    hide SameEnvironment;
    hide Reloaded;
    hide Started;
    ReloadStale(rt, previous, o.undoReload);
    var stopped := StoppedBy(rt, o.undoStop).0;
    StopOneChild(rt, o.undoStop);
    assert NoneAlive(stopped);
    DeadServes(stopped, Some(previous));
    StartServes(stopped, previous, was, o.undoStart, Some(previous));
  }

  lemma PutBackSame(rt: Runtime, config: Config, was: Environment, o: RestoreOracle)
    requires OneChild(rt) && Serves(rt, Some(config))
    ensures Serves(PutBack(rt, Some(config), was, o), Some(config))
  {
    hide OneChild;
    hide Serves;
    hide Reloaded;
    hide Started;
    hide StoppedBy;
    hide Observed;
    hide EnvironmentChanged;
    var c := Some(config);
    var observed := Observed(rt, o.undoHealth).0;
    ObserveServes(rt, o.undoHealth, c);
    AskServes(observed, was, c);
    var asked := EnvironmentChanged(observed, was).0;
    StopServes(asked, o.undoStop, c);
    var stopped := StoppedBy(asked, o.undoStop).0;
    StartServes(stopped, config, was, o.undoStart, c);
    ReloadSame(asked, config, o.undoReload);
    ReloadSame(observed, config, o.undoReload);
  }

  /** The runtime side of a restore: activated, checked, and put back unless everything worked. */
  ghost function RestoredRuntime(asked: Runtime, config: Config, env: Environment, changed: bool, previous: Option<Config>,
                                 was: Environment, o: RestoreOracle): (Runtime, bool) {
    var (rt, failure) := Checked(asked, config, env, changed, previous, was, o.activation, o.healthAfter);
    if failure.Some? || o.stamp == 0 then (rt, false)
    else if o.writes then (rt, true)
    else (PutBack(rt, previous, was, o), false)
  }

  lemma OtherDecides(asked: Runtime, config: Config, env: Environment, changed: bool, previous: Config, was: Environment, o: RestoreOracle)
    requires OneChild(asked) && Serves(asked, Some(previous)) && config != previous && !Stale(asked)
    ensures var (rt, ok) := RestoredRuntime(asked, config, env, changed, Some(previous), was, o);
            Serves(rt, Some(if ok then config else previous)) <==>
            Settles(asked, changed, o.activation, Returns(was, EnvironmentAfter(asked, changed, env, o.activation), o))
  {
    hide Activated;
    hide OneChild;
    hide Serves;
    hide Reverts;
    hide PutBack;
    hide Harmless;
    hide Succeeds;
    hide EnvironmentAfter;
    var (rt, failure) := Activated(asked, config, env, changed, Some(previous), was, o.activation);
    ActivationOutcome(asked, config, env, changed, previous, was, o.activation);
    if failure.None? {
      WorksHarmlessly(asked, changed, o.activation);
      OnlyCurrent(rt, config, config);
      OnlyCurrent(rt, config, previous);
      AliveObserved(rt, config, o.healthAfter);
      PutBackDecides(rt, config, previous, was, o);
    }
  }

  lemma AliveObserved(rt: Runtime, config: Config, healthy: bool)
    requires Alive(rt, config)
    ensures Observed(rt, healthy) == (rt, if healthy then RuntimeRunning else RuntimeDegraded)
  {
  }

  lemma StaleRestore(asked: Runtime, config: Config, env: Environment, changed: bool, previous: Config, was: Environment, o: RestoreOracle)
    requires OneChild(asked) && Stale(asked)
    ensures var (rt, ok) := RestoredRuntime(asked, config, env, changed, Some(previous), was, o);
            Serves(rt, Some(if ok then config else previous))
  {
    hide Activated;
    hide OneChild;
    hide PutBack;
    var (rt, failure) := Activated(asked, config, env, changed, Some(previous), was, o.activation);
    StaleActivation(asked, config, env, changed, Some(previous), was, o.activation);
    if failure.None? { PutBackStale(rt, previous, was, o); }
  }

  lemma SameRestore(asked: Runtime, config: Config, env: Environment, changed: bool, was: Environment, o: RestoreOracle)
    requires OneChild(asked) && Serves(asked, Some(config))
    ensures Serves(RestoredRuntime(asked, config, env, changed, Some(config), was, o).0, Some(config))
  {
    hide Activated;
    hide OneChild;
    hide Serves;
    hide Observed;
    hide PutBack;
    ActivateSame(asked, config, env, changed, was, o.activation);
    var rt := Activated(asked, config, env, changed, Some(config), was, o.activation).0;
    ObserveServes(rt, o.healthAfter, Some(config));
    PutBackSame(Observed(rt, o.healthAfter).0, config, was, o);
  }

  lemma FirstRestore(asked: Runtime, config: Config, env: Environment, changed: bool, was: Environment, o: RestoreOracle)
    requires OneChild(asked)
    ensures var (rt, ok) := RestoredRuntime(asked, config, env, changed, None, was, o); ok ==> Serves(rt, Some(config))
  {
    hide Activated;
    hide OneChild;
    hide Serves;
    hide Observed;
    hide PutBack;
    ActivatedRuns(asked, config, env, changed, None, was, o.activation);
    var rt := Activated(asked, config, env, changed, None, was, o.activation).0;
    if Serves(rt, Some(config)) { ObserveServes(rt, o.healthAfter, Some(config)); }
  }

  lemma RestoredRuntimeDecides(asked: Runtime, config: Config, env: Environment, changed: bool, previous: Option<Config>,
                               was: Environment, o: RestoreOracle)
    requires OneChild(asked) && Serves(asked, previous)
    ensures var (rt, ok) := RestoredRuntime(asked, config, env, changed, previous, was, o);
            Serves(rt, if ok then Some(config) else previous) <==>
            (previous.Some? && previous.value != config ==>
               Settles(asked, changed, o.activation, Returns(was, EnvironmentAfter(asked, changed, env, o.activation), o)))
  {
    hide OneChild;
    hide Serves;
    hide RestoredRuntime;
    hide Harmless;
    hide Succeeds;
    hide Returns;
    hide Stale;
    var (rt, ok) := RestoredRuntime(asked, config, env, changed, previous, was, o);
    if previous.None? {
      FirstRestore(asked, config, env, changed, was, o);
      NothingToServe(rt, None);
    } else if previous.value == config {
      SameRestore(asked, config, env, changed, was, o);
    } else if Stale(asked) {
      StaleRestore(asked, config, env, changed, previous.value, was, o);
    } else {
      OtherDecides(asked, config, env, changed, previous.value, was, o);
    }
  }

  /** The restore gets as far as activating. */
  ghost predicate Activates(db: Db, id: ID, o: RestoreOracle) {
    && o.readable && id in db.revisions && Verified(db.revisions[id]) && o.environment.Success? && o.invalid.None? && o.activeReads
  }

  ghost predicate RestoreSettles(w: World, id: ID, o: RestoreOracle) {
    Activates(w.db, id, o) && ActiveRevision(w.db).Some? && ActiveRevision(w.db).value.json != w.db.revisions[id].json ==>
      var env := o.environment.value;
      var (asked, changed) := EnvironmentChanged(w.rt, env);
      Settles(asked, changed, o.activation, Returns(w.rt.environment, EnvironmentAfter(asked, changed, env, o.activation), o))
  }

  /** The same for a restore: a working activation must be followed by a good health check, a valid clock, and the write
      or compensating calls that reach the process. */
  lemma RestoreDecides(w: World, id: ID, o: RestoreOracle, born: Births)
    requires Invariant(w.db, born) && GoodLanding(o.landed, born) && OneChild(w.rt) && Agree(w)
    ensures Agree(Restore(w, id, o).0) <==> RestoreSettles(w, id, o)
  {
    hide Invariant;
    hide OneChild;
    hide Serves;
    hide Checked;
    hide PutBack;
    hide EnvironmentChanged;
    hide Verified;
    hide Restorable;
    hide Settles;
    hide RestoredTables;
    if Activates(w.db, id, o) {
      var env, previous := o.environment.value, OptionalConfig(ActiveRevision(w.db));
      AskServes(w.rt, env, previous);
      var (asked, changed) := EnvironmentChanged(w.rt, env);
      RestoredRuntimeDecides(asked, w.db.revisions[id].json, env, changed, previous, w.rt.environment, o);
      StillRestorable(w.db, id, o.landed, born);
    }
  }

  /** What is stored can be written back, also after a mutation. */
  lemma StillRestorable(db: Db, id: ID, landed: Option<Tables>, born: Births)
    requires Invariant(db, born) && id in db.revisions
    ensures Restorable(Landed(db, landed), id, Snapshot.Parsed(db.revisions[id].body).value)
  {
    hide GoodRows;
    hide Compilable;
    hide Snapshot.Valid;
    assert Sane(db.revisions[id], born);
    var x := Snapshot.Parsed(db.revisions[id].body).value;
    hide Sane;
    Snapshot.MarshalRoundTrip(x);
  }

  // ----- every step, every run ------------------------------------------------------------------------------------

  /** Start and restart launch the active revision or nothing. */
  lemma StartSettles(w: World, o: StartOracle, stop: bool, born: Births)
    requires Invariant(w.db, born) && GoodLanding(o.apply.before, born) && GoodLanding(o.apply.after, born)
    requires OneChild(w.rt) && Agree(w)
    ensures Agree(ApplySpec.Start(w, o, stop).0)
  {
    hide OneChild;
    hide Serves;
    hide Apply;
    hide Launched;
    hide StoppedBy;
    hide Sane;
    hide GoodRows;
    hide Numbered;
    hide OnePerIdentity;
    ApplyDecides(w, o.apply, born);
    var active := ActiveRevision(w.db);
    StopServes(w.rt, o.stop, OptionalConfig(active));
    if active.Some? {
      SaneJson(active.value, born);
      if o.environment.Success? {
        LaunchServes(w.rt, active.value.json, o.environment.value, o);
        LaunchServes(StoppedBy(w.rt, o.stop).0, active.value.json, o.environment.value, o);
      }
    }
  }

  ghost predicate StepSettles(w: World, a: ApplyRuns.Action) {
    match a
    case ApplyAction(o) => ApplySettles(w, o)
    case RestoreAction(id, o) => RestoreSettles(w, id, o)
    case _ => true
  }

  lemma StepDecides(w: World, a: ApplyRuns.Action, born: Births)
    requires Invariant(w.db, born) && ApplyRuns.Admissible(a, born) && OneChild(w.rt) && Agree(w)
    ensures Agree(ApplyRuns.Step(w, a)) <==> StepSettles(w, a)
  {
    hide Invariant;
    hide OneChild;
    hide Apply;
    hide ApplySpec.Start;
    hide Restore;
    hide StoppedBy;
    hide Observed;
    hide Certified;
    hide Drained;
    hide RuntimeProperties.Exited;
    hide ApplySettles;
    hide RestoreSettles;
    hide GoodRows;
    hide Serves;
    var c := OptionalConfig(ActiveRevision(w.db));
    match a
    case Mutation(_) =>
    case ApplyAction(o) => ApplyDecides(w, o, born);
    case StartAction(o, restart) => StartSettles(w, o, restart, born);
    case StopAction(o) => StopServes(w.rt, o, c);
    case RestoreAction(id, o) => RestoreDecides(w, id, o, born);
    case DeleteAction(_, _) =>
    case StatusAction(healthy) => ObserveServes(w.rt, healthy, c);
    case CertificateAction(request) => CertificateServes(w.rt, request, c);
    case RenewalAction => DrainedServes(w.rt, c);
    case Crash(i) => ExitServes(w.rt, i, c);
  }

  /** Every step of the run settles. */
  ghost predicate AllSettle(w: World, actions: seq<ApplyRuns.Action>)
    decreases |actions|
  {
    |actions| > 0 ==> StepSettles(w, actions[0]) && AllSettle(ApplyRuns.Step(w, actions[0]), actions[1..])
  }

  ghost predicate AgreesThroughout(w: World, actions: seq<ApplyRuns.Action>) {
    forall k :: 0 <= k <= |actions| ==> Agree(ApplyRuns.Run(w, actions[..k]))
  }

  lemma AgreesInSteps(w: World, actions: seq<ApplyRuns.Action>)
    requires |actions| > 0
    ensures AgreesThroughout(w, actions) <==> Agree(w) && AgreesThroughout(ApplyRuns.Step(w, actions[0]), actions[1..])
  {
    hide Agree;
    hide ApplyRuns.Step;
    var w1, rest := ApplyRuns.Step(w, actions[0]), actions[1..];
    assert actions[..0] == [] && ApplyRuns.Run(w, actions[..0]) == w;
    forall k | 0 <= k <= |rest| ensures ApplyRuns.Run(w, actions[..k + 1]) == ApplyRuns.Run(w1, rest[..k]) {
      assert actions[..k + 1][1..] == rest[..k];
    }
    if Agree(w) && AgreesThroughout(w1, rest) {
      forall k | 0 <= k <= |actions| ensures Agree(ApplyRuns.Run(w, actions[..k])) {
        if k > 0 { assert Agree(ApplyRuns.Run(w1, rest[..k - 1])); }
      }
    }
    if AgreesThroughout(w, actions) {
      assert Agree(ApplyRuns.Run(w, actions[..0]));
      forall k | 0 <= k <= |rest| ensures Agree(ApplyRuns.Run(w1, rest[..k])) {
        assert Agree(ApplyRuns.Run(w, actions[..k + 1]));
      }
    }
  }

  /** In every run a live process has the configuration of the active revision at every moment, exactly when every apply
      and restore settles. */
  lemma {:induction false} AgreesExactly(w: World, actions: seq<ApplyRuns.Action>, born: Births)
    requires Invariant(w.db, born) && OneChild(w.rt) && Agree(w)
    requires forall i :: 0 <= i < |actions| ==> ApplyRuns.Admissible(actions[i], born)
    ensures AgreesThroughout(w, actions) <==> AllSettle(w, actions)
    decreases |actions|
  {
    hide Invariant;
    hide OneChild;
    hide Agree;
    hide ApplyRuns.Admissible;
    hide ApplyRuns.Step;
    hide StepSettles;
    hide Follows;
    hide UpToDate;
    if |actions| == 0 {
      assert actions[..0] == [] && ApplyRuns.Run(w, actions[..0]) == w;
    } else {
      var w1 := ApplyRuns.Step(w, actions[0]);
      hide AgreesThroughout;
      AgreesInSteps(w, actions);
      StepDecides(w, actions[0], born);
      ApplyRuns.StepKeeps(w, actions[0], born);
      ServiceOneChild(w, actions[0]);
      if Agree(w1) {
        AgreesExactly(w1, actions[1..], born);
      } else {
        NowDisagrees(w1, actions[1..]);
      }
    }
  }

  lemma NowDisagrees(w: World, actions: seq<ApplyRuns.Action>)
    requires !Agree(w)
    ensures !AgreesThroughout(w, actions)
  {
    hide Agree;
    assert actions[..0] == [] && ApplyRuns.Run(w, actions[..0]) == w;
  }
}
