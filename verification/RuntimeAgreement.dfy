/** Which configuration the managed process runs after each step of an activation. */
module RuntimeAgreement {
  import opened Ordering
  import opened CaddyConfig
  import opened CaddyRuntime
  import opened RuntimeProperties
  import opened ApplySpec

  /** Any live process runs this configuration. */
  ghost predicate Serves(rt: Runtime, c: Option<Config>) {
    forall i :: 0 <= i < |rt.processes| && rt.processes[i].alive && c.Some? ==> rt.processes[i].config == c.value
  }

  /** A reload that reports failure did not take effect. */
  predicate Faithful(o: ReloadOutcome) { o.invalid.Some? || o.admin.Rejected? || (o.admin.Accepted? && o.saves) }

  /** The reload works. */
  predicate Works(o: ReloadOutcome) { o.invalid.None? && o.admin.Accepted? && o.saves }

  lemma DeadServes(rt: Runtime, c: Option<Config>)
    requires NoneAlive(rt)
    ensures Serves(rt, c)
  {
  }

  lemma StartServes(rt: Runtime, config: Config, env: Environment, o: StartOutcome, c: Option<Config>)
    requires OneChild(rt) && Serves(rt, c)
    ensures var (after, failure) := Started(rt, config, env, o);
            OneChild(after) && if failure.Some? then Serves(after, c) else if Running(rt) then after == rt else Serves(after, Some(config))
  {
  }

  lemma StopServes(rt: Runtime, o: StopOutcome, c: Option<Config>)
    requires OneChild(rt) && Serves(rt, c)
    ensures var (after, failure) := StoppedBy(rt, o);
            OneChild(after) && Serves(after, c) && (failure.None? ==> !Running(after))
  {
  }

  lemma ReloadServes(rt: Runtime, config: Config, o: ReloadOutcome, c: Option<Config>)
    requires OneChild(rt) && Serves(rt, c) && Faithful(o)
    ensures var (after, failure) := Reloaded(rt, config, o);
            OneChild(after) && Serves(after, if failure.Some? then c else Some(config))
  {
  }

  lemma ObserveServes(rt: Runtime, healthy: bool, c: Option<Config>)
    requires OneChild(rt) && Serves(rt, c)
    ensures var (after, state) := Observed(rt, healthy);
            && OneChild(after) && Serves(after, c)
            && (Running(after) <==> state.RuntimeRunning? || state.RuntimeDegraded?)
            && (!state.RuntimeRunning? && healthy ==> NoneAlive(after))
  {
  }

  lemma AskServes(rt: Runtime, env: Environment, c: Option<Config>)
    requires OneChild(rt) && Serves(rt, c)
    ensures OneChild(EnvironmentChanged(rt, env).0) && Serves(EnvironmentChanged(rt, env).0, c)
    ensures EnvironmentChanged(rt, env).0.environment == rt.environment
  {
  }

  lemma StartOrReloadServes(rt: Runtime, config: Config, env: Environment, a: Activation, c: Option<Config>)
    requires OneChild(rt) && Serves(rt, c) && Faithful(a.reload)
    ensures var (after, failure) := StartOrReload(rt, config, env, a);
            OneChild(after) && Serves(after, if failure.Some? then c else Some(config))
  {
    hide Started;
    hide Reloaded;
    hide Observed;
    hide OneChild;
    hide Serves;
    hide Running;
    hide NoneAlive;
    var (observed, state) := Observed(rt, a.health);
    ObserveServes(rt, a.health, c);
    StartServes(observed, config, env, a.start, c);
    ReloadServes(observed, config, a.reload, c);
  }

  lemma ReplaceServes(rt: Runtime, config: Config, env: Environment, previous: Option<Config>, previousEnv: Environment, a: Activation)
    requires OneChild(rt) && Serves(rt, previous)
    ensures var (after, failure) := Replace(rt, config, env, previous, previousEnv, a);
            OneChild(after) && Serves(after, if failure.Some? then previous else Some(config))
  {
    hide Started;
    hide StoppedBy;
    hide OneChild;
    hide Serves;
    var (stopped, failure) := StoppedBy(rt, a.stop);
    StopServes(rt, a.stop, previous);
    StartServes(stopped, config, env, a.start, previous);
    var (started, problem) := Started(stopped, config, env, a.start);
    if failure.None? && problem.Some? && previous.Some? {
      StartServes(started, previous.value, previousEnv, a.back, previous);
    }
  }

  /** A successful activation leaves the new configuration, a failed one the old, in any live process. */
  lemma ActivatedServes(rt: Runtime, config: Config, env: Environment, restart: bool, previous: Option<Config>,
                        previousEnv: Environment, a: Activation)
    requires OneChild(rt) && Serves(rt, previous) && Faithful(a.reload)
    ensures var (after, failure) := Activated(rt, config, env, restart, previous, previousEnv, a);
            OneChild(after) && Serves(after, if failure.Some? then previous else Some(config))
  {
    hide Replace;
    hide StartOrReload;
    hide Observed;
    hide OneChild;
    hide Serves;
    var observed := Observed(rt, a.restartHealth).0;
    ObserveServes(rt, a.restartHealth, previous);
    ReplaceServes(observed, config, env, previous, previousEnv, a);
    StartOrReloadServes(observed, config, env, a, previous);
    StartOrReloadServes(rt, config, env, a, previous);
  }

  /** The same with the health check, when what was started or reloaded answers it. */
  lemma CheckedServes(rt: Runtime, config: Config, env: Environment, restart: bool, previous: Option<Config>,
                      previousEnv: Environment, a: Activation)
    requires OneChild(rt) && Serves(rt, previous) && Faithful(a.reload)
    ensures var (after, failure) := Checked(rt, config, env, restart, previous, previousEnv, a, true);
            && OneChild(after) && Serves(after, if failure.Some? then previous else Some(config))
            && (failure.None? ==> Running(after))
  {
    hide Activated;
    hide OneChild;
    hide Serves;
    hide Observed;
    hide Running;
    hide NoneAlive;
    ActivatedServes(rt, config, env, restart, previous, previousEnv, a);
    var (activated, failure) := Activated(rt, config, env, restart, previous, previousEnv, a);
    if failure.None? {
      ObserveServes(activated, true, Some(config));
      var (after, state) := Observed(activated, true);
      if !state.RuntimeRunning? { DeadServes(after, previous); }
    }
  }

  /** Reloading back to the old configuration works on a running process. */
  lemma ReloadBack(rt: Runtime, config: Config, o: ReloadOutcome)
    requires OneChild(rt) && Running(rt) && Works(o)
    ensures OneChild(Reloaded(rt, config, o).0) && Serves(Reloaded(rt, config, o).0, Some(config))
  {
  }

  /** The compensating calls of a restore do what they are asked: a reload works, a stop ends the process. */
  predicate PutsBack(o: RestoreOracle) {
    Works(o.undoReload) && o.undoStop.accepted && !o.undoStop.shutdown.Cancelled?
  }

  lemma PutBackServes(rt: Runtime, previous: Option<Config>, previousEnv: Environment, o: RestoreOracle)
    requires OneChild(rt) && Running(rt) && PutsBack(o)
    ensures OneChild(PutBack(rt, previous, previousEnv, o)) && Serves(PutBack(rt, previous, previousEnv, o), previous)
  {
    hide OneChild;
    hide Serves;
    hide Reloaded;
    hide Started;
    if previous.None? {
      NothingToServe(rt, previous);
      StopServes(rt, o.undoStop, previous);
    } else {
      var stopped := StoppedBy(rt, o.undoStop).0;
      StoppedEnds(rt, o.undoStop, previous);
      StartServes(stopped, previous.value, previousEnv, o.undoStart, previous);
      ReloadBack(rt, previous.value, o.undoReload);
    }
  }

  lemma NothingToServe(rt: Runtime, c: Option<Config>)
    requires c.None?
    ensures Serves(rt, c)
  {
  }

  lemma StoppedEnds(rt: Runtime, o: StopOutcome, c: Option<Config>)
    requires OneChild(rt) && Running(rt) && o.accepted && !o.shutdown.Cancelled?
    ensures OneChild(StoppedBy(rt, o).0) && Serves(StoppedBy(rt, o).0, c) && !Running(StoppedBy(rt, o).0)
  {
  }

  // ----- exactly when an activation succeeds ---------------------------------------------------------------

  /** The reload reached the process. */
  predicate TookEffect(o: ReloadOutcome) { o.invalid.None? && !o.admin.Rejected? }

  predicate Starts(o: StartOutcome) { o.invalid.None? && o.saves && o.launches && Decisive(o.polls).Healthy? }

  predicate Ends(o: StopOutcome) { o.accepted && o.shutdown == Exits(true) }

  /** The process is kept and reloaded. */
  predicate Reloads(rt: Runtime, changed: bool, a: Activation) { Running(rt) && !(changed && a.restartHealth) }

  predicate Succeeds(rt: Runtime, changed: bool, a: Activation) {
    if Reloads(rt, changed, a) then Works(a.reload) else (Running(rt) ==> Ends(a.stop)) && Starts(a.start)
  }

  /** A reload that fails changes nothing. */
  predicate Harmless(rt: Runtime, changed: bool, a: Activation) { Reloads(rt, changed, a) ==> Faithful(a.reload) }

  /** The branch that is taken works; under a stale manager only a reload can. */
  predicate Activable(rt: Runtime, changed: bool, a: Activation) {
    Succeeds(rt, changed, a) && (Stale(rt) ==> Reloads(rt, changed, a))
  }

  lemma StartedExactly(rt: Runtime, config: Config, env: Environment, o: StartOutcome)
    requires !Running(rt)
    ensures Started(rt, config, env, o).1.None? <==> Starts(o)
    ensures Started(rt, config, env, o).1.None? ==> Running(Started(rt, config, env, o).0)
  {
  }

  lemma ReloadedExactly(rt: Runtime, config: Config, o: ReloadOutcome)
    requires Running(rt)
    ensures Reloaded(rt, config, o).1.None? <==> Works(o)
    ensures Running(Reloaded(rt, config, o).0)
  {
  }

  lemma ReplacedExactly(rt: Runtime, config: Config, env: Environment, previous: Option<Config>, was: Environment, a: Activation)
    requires Running(rt)
    ensures Replace(rt, config, env, previous, was, a).1.None? <==> !Stale(rt) && Ends(a.stop) && Starts(a.start)
    ensures Replace(rt, config, env, previous, was, a).1.None? ==> Running(Replace(rt, config, env, previous, was, a).0)
  {
    hide Started;
    hide Starts;
    var (stopped, failure) := StoppedBy(rt, a.stop);
    assert failure.None? <==> !Stale(rt) && Ends(a.stop);
    if failure.None? { StartedExactly(stopped, config, env, a.start); }
  }

  lemma ActivatedExactly(rt: Runtime, config: Config, env: Environment, changed: bool, previous: Option<Config>, was: Environment,
                         a: Activation)
    ensures var (after, failure) := Activated(rt, config, env, changed, previous, was, a);
            (failure.None? <==> Activable(rt, changed, a)) && (failure.None? ==> Running(after))
  {
    hide Started;
    hide Reloaded;
    hide Replace;
    hide Starts;
    hide Ends;
    hide Works;
    if Running(rt) {
      ReplacedExactly(rt, config, env, previous, was, a);
      ReloadedExactly(rt, config, a.reload);
    } else {
      var gone := Observed(rt, a.health).0;
      assert gone == Observed(rt, a.restartHealth).0 == Observed(gone, a.health).0;
      StartedExactly(gone, config, env, a.start);
    }
  }

  lemma CheckedExactly(rt: Runtime, config: Config, env: Environment, changed: bool, previous: Option<Config>, was: Environment,
                       a: Activation, health: bool)
    ensures Checked(rt, config, env, changed, previous, was, a, health).1.None? <==> health && Activable(rt, changed, a)
  {
    hide Activated;
    hide Activable;
    ActivatedExactly(rt, config, env, changed, previous, was, a);
    var (after, failure) := Activated(rt, config, env, changed, previous, was, a);
    if failure.None? { assert Observed(after, health).1.RuntimeRunning? <==> health; }
  }
}
