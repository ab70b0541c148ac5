/** The running configuration against the active revision, in every run. */
module ApplyAgreement {
  import opened Ordering
  import opened Domain
  import opened CaddyConfig
  import opened CaddyRuntime
  import opened RuntimeProperties
  import opened Database
  import opened Revisions
  import opened RevisionProperties
  import opened ApplySpec
  import opened ApplyProperties
  import opened RuntimeAgreement
  import opened CompilerSpec
  import opened Tables
  import Snapshot
  import Identity
  import ApplyRuns

  // ----- at most one live process, whatever happens ----------------------------------------------------

  lemma AskOneChild(rt: Runtime, env: Environment)
    requires OneChild(rt)
    ensures OneChild(EnvironmentChanged(rt, env).0)
  {
  }

  lemma StartOrReloadOneChild(rt: Runtime, config: Config, env: Environment, a: Activation)
    requires OneChild(rt)
    ensures OneChild(StartOrReload(rt, config, env, a).0)
  {
    hide OneChild;
    hide Started;
    hide Reloaded;
    hide Observed;
    ObserveOneChild(rt, a.health);
    var observed := Observed(rt, a.health).0;
    StartOneChild(observed, config, env, a.start);
    ReloadOneChild(observed, config, a.reload);
  }

  lemma ReplaceOneChild(rt: Runtime, config: Config, env: Environment, previous: Option<Config>, previousEnv: Environment, a: Activation)
    requires OneChild(rt)
    ensures OneChild(Replace(rt, config, env, previous, previousEnv, a).0)
  {
    hide OneChild;
    hide Started;
    hide StoppedBy;
    StopOneChild(rt, a.stop);
    var stopped := StoppedBy(rt, a.stop).0;
    StartOneChild(stopped, config, env, a.start);
    if previous.Some? { StartOneChild(Started(stopped, config, env, a.start).0, previous.value, previousEnv, a.back); }
  }

  lemma CheckedOneChild(rt: Runtime, config: Config, env: Environment, restart: bool, previous: Option<Config>,
                        previousEnv: Environment, a: Activation, health: bool)
    requires OneChild(rt)
    ensures OneChild(Checked(rt, config, env, restart, previous, previousEnv, a, health).0)
  {
    hide OneChild;
    hide Observed;
    hide Replace;
    hide StartOrReload;
    ObserveOneChild(rt, a.restartHealth);
    var observed := Observed(rt, a.restartHealth).0;
    ReplaceOneChild(observed, config, env, previous, previousEnv, a);
    StartOrReloadOneChild(observed, config, env, a);
    StartOrReloadOneChild(rt, config, env, a);
    ObserveOneChild(Activated(rt, config, env, restart, previous, previousEnv, a).0, health);
  }

  lemma ActivateOneChild(w: World, id: ID, created: bool, config: Config, env: Environment, changed: bool,
                         previous: Option<Config>, o: ApplyOracle)
    requires OneChild(w.rt) && id in w.db.revisions
    ensures OneChild(ActivateAndMark(w, id, created, config, env, changed, previous, o).0.rt)
  {
    hide OneChild;
    hide Checked;
    hide Reloaded;
    hide StoppedBy;
    CheckedOneChild(w.rt, config, env, changed, previous, w.rt.environment, o.activation, o.healthAfter);
    var rt := Checked(w.rt, config, env, changed, previous, w.rt.environment, o.activation, o.healthAfter).0;
    if previous.Some? { ReloadOneChild(rt, previous.value, o.undoReload); }
    StopOneChild(rt, o.undoStop);
  }

  lemma FinishedOneChild(w: World, id: ID, created: bool, config: Config, hash: ConfigHash, env: Environment,
                         previous: Option<Revision>, o: ApplyOracle)
    requires OneChild(w.rt) && id in w.db.revisions
    ensures OneChild(Finished(w, id, created, config, hash, env, previous, o).0.rt)
  {
    hide OneChild;
    hide ActivateAndMark;
    hide Observed;
    hide EnvironmentChanged;
    AskOneChild(w.rt, env);
    var (asked, changed) := EnvironmentChanged(w.rt, env);
    ObserveOneChild(asked, o.health);
    ActivateOneChild(w.(rt := asked), id, created, config, env, changed, OptionalConfig(previous), o);
    ActivateOneChild(w.(rt := Observed(asked, o.health).0), id, created, config, env, changed, OptionalConfig(previous), o);
  }

  lemma ApplyOneChild(w: World, o: ApplyOracle)
    requires OneChild(w.rt)
    ensures OneChild(Apply(w, o).0.rt)
  {
    hide OneChild;
    hide Finished;
    hide Snapshot.Valid;
    hide Compilable;
    hide Compiled;
    hide Load;
    hide Record;
    var now, x := Landed(w.db, o.before), Load(w.db.tables);
    if Ready(w.db, o) && Record(now, x, o).Recorded? {
      var r := Record(now, x, o);
      RecordStored(now, x, o);
      FinishedOneChild(World(Landed(r.db, o.after), w.rt), r.id, r.created, Compiled(x).json, Compiled(x).sha256,
                       o.environment.value, ActiveRevision(w.db), o);
    }
  }

  lemma RecordStored(db: Db, x: Domain.State, o: ApplyOracle)
    requires Snapshot.Valid(x) && Compilable(x) && Record(db, x, o).Recorded?
    ensures Record(db, x, o).id in Record(db, x, o).db.revisions
  {
    hide Snapshot.Valid;
    hide Compilable;
    hide Compiled;
    hide NewRevision;
  }

  lemma LaunchOneChild(rt: Runtime, config: Config, env: Environment, o: StartOracle)
    requires OneChild(rt)
    ensures OneChild(Launched(rt, config, env, o).0)
  {
    hide OneChild;
    hide Started;
    hide Observed;
    StartOneChild(rt, config, env, o.start);
    ObserveOneChild(Started(rt, config, env, o.start).0, o.health);
  }

  lemma PutBackOneChild(rt: Runtime, previous: Option<Config>, previousEnv: Environment, o: RestoreOracle)
    requires OneChild(rt)
    ensures OneChild(PutBack(rt, previous, previousEnv, o))
  {
    hide OneChild;
    hide Started;
    hide Reloaded;
    hide StoppedBy;
    hide Observed;
    hide EnvironmentChanged;
    StopOneChild(rt, o.undoStop);
    ObserveOneChild(rt, o.undoHealth);
    var observed := Observed(rt, o.undoHealth).0;
    AskOneChild(observed, previousEnv);
    var asked := EnvironmentChanged(observed, previousEnv).0;
    StopOneChild(asked, o.undoStop);
    if previous.Some? {
      ReloadOneChild(observed, previous.value, o.undoReload);
      ReloadOneChild(asked, previous.value, o.undoReload);
      StartOneChild(StoppedBy(asked, o.undoStop).0, previous.value, previousEnv, o.undoStart);
    }
  }

  lemma ServiceOneChild(w: World, a: ApplyRuns.Action)
    requires OneChild(w.rt)
    ensures OneChild(ApplyRuns.Step(w, a).rt)
  {
    hide OneChild;
    hide Apply;
    hide Checked;
    hide PutBack;
    hide Launched;
    hide StoppedBy;
    hide Observed;
    hide EnvironmentChanged;
    hide Verified;
    hide Certified;
    hide Drained;
    hide RuntimeProperties.Exited;
    match a
    case Mutation(_) =>
    case ApplyAction(o) => ApplyOneChild(w, o);
    case StartAction(o, restart) => StartActionOneChild(w, o, restart);
    case StopAction(o) => StopOneChild(w.rt, o);
    case RestoreAction(id, o) => RestoreOneChild(w, id, o);
    case DeleteAction(_, _) =>
    case StatusAction(healthy) => ObserveOneChild(w.rt, healthy);
    case CertificateAction(request) => CertificateOneChild(w.rt, request);
    case RenewalAction => AskedOneChild(w.rt);
    case Crash(i) => ExitOneChild(w.rt, i);
  }

  lemma StartActionOneChild(w: World, o: StartOracle, stop: bool)
    requires OneChild(w.rt)
    ensures OneChild(ApplySpec.Start(w, o, stop).0.rt)
  {
    hide OneChild;
    hide Apply;
    hide Launched;
    hide StoppedBy;
    hide Snapshot.Parsed;
    ApplyOneChild(w, o.apply);
    StopOneChild(w.rt, o.stop);
    var active := ActiveRevision(w.db);
    if active.Some? && o.environment.Success? {
      LaunchOneChild(w.rt, active.value.json, o.environment.value, o);
      LaunchOneChild(StoppedBy(w.rt, o.stop).0, active.value.json, o.environment.value, o);
    }
  }

  lemma RestoreOneChild(w: World, id: ID, o: RestoreOracle)
    requires OneChild(w.rt)
    ensures OneChild(Restore(w, id, o).0.rt)
  {
    hide OneChild;
    hide Checked;
    hide PutBack;
    hide EnvironmentChanged;
    hide Verified;
    hide Restorable;
    if id in w.db.revisions && o.environment.Success? {
      var r, env, previous := w.db.revisions[id], o.environment.value, OptionalConfig(ActiveRevision(w.db));
      AskOneChild(w.rt, env);
      var (asked, changed) := EnvironmentChanged(w.rt, env);
      CheckedOneChild(asked, r.json, env, changed, previous, w.rt.environment, o.activation, o.healthAfter);
      var rt := Checked(asked, r.json, env, changed, previous, w.rt.environment, o.activation, o.healthAfter).0;
      PutBackOneChild(rt, previous, w.rt.environment, o);
    }
  }

  /** No run of the service ever has two live processes. */
  lemma {:induction false} OneLiveService(w: World, actions: seq<ApplyRuns.Action>)
    requires OneChild(w.rt)
    ensures OneChild(ApplyRuns.Run(w, actions).rt)
    decreases |actions|
  {
    hide OneChild;
    hide ApplyRuns.Step;
    if |actions| > 0 {
      ServiceOneChild(w, actions[0]);
      OneLiveService(ApplyRuns.Step(w, actions[0]), actions[1..]);
    }
  }

  // ----- the running configuration agrees with the active revision -------------------------------------------

  /** A running process runs the active revision's configuration. */
  ghost predicate Agree(w: World) { Serves(w.rt, OptionalConfig(ActiveRevision(w.db))) }

  /** Failed reloads leave the process as it was, what was started answers the health check, the clock is
      valid, and compensating calls do what they are asked. */
  predicate TrustedApply(o: ApplyOracle) { Faithful(o.activation.reload) && o.healthAfter && Works(o.undoReload) }

  predicate TrustedRestore(o: RestoreOracle) {
    Faithful(o.activation.reload) && o.healthAfter && o.stamp != 0 && PutsBack(o)
  }

  predicate Trusted(a: ApplyRuns.Action) {
    match a
    case ApplyAction(o) => TrustedApply(o)
    case StartAction(o, _) => TrustedApply(o.apply)
    case RestoreAction(_, o) => TrustedRestore(o)
    case _ => true
  }

  lemma ActivateServes(w: World, id: ID, created: bool, config: Config, env: Environment, changed: bool,
                       previous: Option<Config>, o: ApplyOracle)
    requires OneChild(w.rt) && Serves(w.rt, previous) && id in w.db.revisions && TrustedApply(o)
    ensures var (after, r) := ActivateAndMark(w, id, created, config, env, changed, previous, o);
            && Serves(after.rt, if r.Success? then Some(config) else previous)
            && (r.Success? ==> Running(after.rt))
  {
    hide OneChild;
    hide Serves;
    hide Checked;
    hide Reloaded;
    hide StoppedBy;
    hide Running;
    hide Faithful;
    hide Works;
    CheckedServes(w.rt, config, env, changed, previous, w.rt.environment, o.activation);
    var (rt, failure) := Checked(w.rt, config, env, changed, previous, w.rt.environment, o.activation, o.healthAfter);
    if failure.None? && previous.Some? { ReloadBack(rt, previous.value, o.undoReload); }
    if previous.None? { NothingToServe(Undone(rt, previous, o), previous); }
  }

  lemma FinishedServes(w: World, id: ID, created: bool, config: Config, hash: ConfigHash, env: Environment,
                       previous: Option<Revision>, o: ApplyOracle)
    requires OneChild(w.rt) && Serves(w.rt, OptionalConfig(previous)) && id in w.db.revisions && TrustedApply(o)
    requires previous.Some? && previous.value.configHash == hash ==> previous.value.json == config
    ensures var (after, r) := Finished(w, id, created, config, hash, env, previous, o);
            && Serves(after.rt, if r.Success? then Some(config) else OptionalConfig(previous))
            && (r.Success? ==> Running(after.rt))
  {
    hide OneChild;
    hide Serves;
    hide ActivateAndMark;
    hide Observed;
    hide EnvironmentChanged;
    hide Running;
    hide TrustedApply;
    hide NoneAlive;
    AskServes(w.rt, env, OptionalConfig(previous));
    var (asked, changed) := EnvironmentChanged(w.rt, env);
    ObserveServes(asked, o.health, OptionalConfig(previous));
    var observed := Observed(asked, o.health).0;
    ActivateServes(w.(rt := asked), id, created, config, env, changed, OptionalConfig(previous), o);
    ActivateServes(w.(rt := observed), id, created, config, env, changed, OptionalConfig(previous), o);
  }

  /** The configuration of the active revision does not change unless the pointer does. */
  lemma ActiveKept(db: Db, db': Db)
    requires Pointers(db) && Keeps(db, db') && db'.active == db.active
    ensures OptionalConfig(ActiveRevision(db')) == OptionalConfig(ActiveRevision(db))
  {
  }

  lemma SameHashSameConfig(db: Db, x: Domain.State, born: Births)
    requires Invariant(db, born) && Compilable(x) && ActiveRevision(db).Some?
    requires ActiveRevision(db).value.configHash == Compiled(x).sha256
    ensures ActiveRevision(db).value.json == Compiled(x).json
  {
    hide GoodRows;
    hide Compilable;
    hide Compiled;
    CompiledHash(x);
    hide Sane;
    SaneJson(ActiveRevision(db).value, born);
  }

  /** The active pointer after an apply. */
  lemma ApplyActive(w: World, o: ApplyOracle, born: Births)
    requires Invariant(w.db, born) && GoodLanding(o.before, born) && GoodLanding(o.after, born)
    ensures var (after, r) := Apply(w, o);
            OptionalConfig(ActiveRevision(after.db)) == if r.Success? then Some(r.value.revision.json) else OptionalConfig(ActiveRevision(w.db))
  {
    hide Sane;
    hide GoodRows;
    hide Finished;
    hide Snapshot.Valid;
    hide Compilable;
    hide Compiled;
    hide Load;
    hide Record;
    hide AllSane;
    hide Numbered;
    hide OnePerIdentity;
    ApplyKeeps(w, o, born);
    var (after, r) := Apply(w, o);
    if r.Failure? {
      FailedApplyActive(w, o, born);
      ActiveKept(w.db, after.db);
    }
  }

  lemma FailedApplyActive(w: World, o: ApplyOracle, born: Births)
    requires Invariant(w.db, born) && GoodLanding(o.before, born) && GoodLanding(o.after, born) && Apply(w, o).1.Failure?
    ensures Apply(w, o).0.db.active == w.db.active
  {
    hide Sane;
    hide GoodRows;
    hide Finished;
    hide Snapshot.Valid;
    hide Compilable;
    hide Compiled;
    hide Load;
    hide Record;
    hide Invariant;
    hide Marked;
    hide Identity.IdentityOf;
    LandedKeeps(w.db, o.before, born);
    var now, x := Landed(w.db, o.before), Load(w.db.tables);
    if Ready(w.db, o) && Record(now, x, o).Recorded? {
      var r := Record(now, x, o);
      LoadedBorn(w.db, born);
      RecordKeeps(now, x, o, born);
      var middle := World(Landed(r.db, o.after), w.rt);
      FinishedMarks(middle, r.id, r.created, Compiled(x).json, Compiled(x).sha256, o.environment.value, ActiveRevision(w.db), o);
      UnmarkedActive(middle, r.id, r.created, o, Apply(w, o).0);
    }
  }

  lemma UnmarkedActive(w: World, id: ID, created: bool, o: ApplyOracle, after: World)
    requires id in w.db.revisions && Marked(w, id, created, o, after, Failure)
    ensures after.db.active == w.db.active
  {
  }

  /** Apply keeps the agreement, and when it succeeds the process runs the returned revision. */
  lemma ApplyAgrees(w: World, o: ApplyOracle, born: Births)
    requires Invariant(w.db, born) && GoodLanding(o.before, born) && GoodLanding(o.after, born)
    requires OneChild(w.rt) && Agree(w) && TrustedApply(o)
    ensures var (after, r) := Apply(w, o);
            && Agree(after)
            && (r.Success? ==> Running(after.rt) && Serves(after.rt, Some(r.value.revision.json)))
  {
    hide Sane;
    hide GoodRows;
    hide Finished;
    hide Snapshot.Valid;
    hide Compilable;
    hide Compiled;
    hide Load;
    hide Record;
    hide Invariant;
    hide OneChild;
    hide Serves;
    hide Running;
    hide TrustedApply;
    hide Identity.IdentityOf;
    hide ActiveRevision;
    hide Follows;
    hide Keeps;
    hide UpToDate;
    ApplyActive(w, o, born);
    ApplyKeeps(w, o, born);
    LandedKeeps(w.db, o.before, born);
    var now, x := Landed(w.db, o.before), Load(w.db.tables);
    var previous := ActiveRevision(w.db);
    if Ready(w.db, o) && Record(now, x, o).Recorded? {
      var r := Record(now, x, o);
      RecordStored(now, x, o);
      if previous.Some? && previous.value.configHash == Compiled(x).sha256 { SameHashSameConfig(w.db, x, born); }
      FinishedServes(World(Landed(r.db, o.after), w.rt), r.id, r.created, Compiled(x).json, Compiled(x).sha256,
                     o.environment.value, previous, o);
    }
  }

  lemma LaunchServes(rt: Runtime, config: Config, env: Environment, o: StartOracle)
    requires OneChild(rt) && Serves(rt, Some(config))
    ensures Serves(Launched(rt, config, env, o).0, Some(config))
    ensures Launched(rt, config, env, o).1 ==> Running(Launched(rt, config, env, o).0)
  {
    hide OneChild;
    hide Serves;
    hide Started;
    hide Observed;
    hide Running;
    StartServes(rt, config, env, o.start, Some(config));
    ObserveServes(Started(rt, config, env, o.start).0, o.health, Some(config));
  }

  lemma StartAgrees(w: World, o: StartOracle, stop: bool, born: Births)
    requires Invariant(w.db, born) && GoodLanding(o.apply.before, born) && GoodLanding(o.apply.after, born)
    requires OneChild(w.rt) && Agree(w) && TrustedApply(o.apply)
    ensures var (after, ok) := ApplySpec.Start(w, o, stop);
            Agree(after) && (ok ==> Running(after.rt) && OptionalConfig(ActiveRevision(after.db)).Some?)
  {
    hide Invariant;
    hide OneChild;
    hide Serves;
    hide Apply;
    hide Launched;
    hide StoppedBy;
    hide Running;
    hide Snapshot.Parsed;
    hide TrustedApply;
    hide ActiveRevision;
    ApplyAgrees(w, o.apply, born);
    ApplyActive(w, o.apply, born);
    var active := ActiveRevision(w.db);
    StopServes(w.rt, o.stop, OptionalConfig(active));
    if active.Some? && o.environment.Success? {
      LaunchServes(w.rt, active.value.json, o.environment.value, o);
      LaunchServes(StoppedBy(w.rt, o.stop).0, active.value.json, o.environment.value, o);
    }
  }

  /** Restore keeps the agreement, and when it succeeds the process runs the restored revision. */
  lemma RestoreAgrees(w: World, id: ID, o: RestoreOracle)
    requires OneChild(w.rt) && Agree(w) && TrustedRestore(o)
    ensures var (after, r) := Restore(w, id, o);
            && Agree(after)
            && (r.Success? ==> Running(after.rt) && Serves(after.rt, Some(r.value.revision.json)) && after.db.active == Some(id))
  {
    hide OneChild;
    hide Serves;
    hide Running;
    hide Checked;
    hide PutBack;
    hide EnvironmentChanged;
    hide Verified;
    hide Restorable;
    hide Faithful;
    hide PutsBack;
    hide RestoredTables;
    if id in w.db.revisions && o.environment.Success? {
      var r, env, previous := w.db.revisions[id], o.environment.value, OptionalConfig(ActiveRevision(w.db));
      AskServes(w.rt, env, previous);
      var (asked, changed) := EnvironmentChanged(w.rt, env);
      CheckedServes(asked, r.json, env, changed, previous, w.rt.environment, o.activation);
      var (rt, failure) := Checked(asked, r.json, env, changed, previous, w.rt.environment, o.activation, o.healthAfter);
      if failure.None? { PutBackServes(rt, previous, w.rt.environment, o); }
    }
  }

  lemma ExitServes(rt: Runtime, i: nat, c: Option<Config>)
    requires Serves(rt, c)
    ensures Serves(RuntimeProperties.Exited(rt, i), c)
  {
  }

  lemma DrainedServes(rt: Runtime, c: Option<Config>)
    requires Serves(rt, c)
    ensures Serves(Drained(rt), c)
  {
  }

  lemma CertificateServes(rt: Runtime, request: CertificateRequest, c: Option<Config>)
    requires Serves(rt, c)
    ensures Serves(Certified(rt, request).0, c)
  {
    DrainedServes(rt, c);
  }

  lemma ServiceAgrees(w: World, a: ApplyRuns.Action, born: Births)
    requires Invariant(w.db, born) && ApplyRuns.Admissible(a, born) && OneChild(w.rt) && Agree(w) && Trusted(a)
    ensures Agree(ApplyRuns.Step(w, a))
  {
    hide Invariant;
    hide OneChild;
    hide Apply;
    hide ApplySpec.Start;
    hide Restore;
    hide StoppedBy;
    hide Observed;
    hide Certified;
    hide Drained;
    hide RuntimeProperties.Exited;
    hide TrustedApply;
    hide TrustedRestore;
    hide GoodRows;
    hide Serves;
    var c := OptionalConfig(ActiveRevision(w.db));
    match a
    case Mutation(_) =>
    case ApplyAction(o) => ApplyAgrees(w, o, born);
    case StartAction(o, restart) => StartAgrees(w, o, restart, born);
    case StopAction(o) => StopServes(w.rt, o, c);
    case RestoreAction(id, o) => RestoreAgrees(w, id, o);
    case DeleteAction(_, _) =>
    case StatusAction(healthy) => ObserveServes(w.rt, healthy, c);
    case CertificateAction(request) => CertificateServes(w.rt, request, c);
    case RenewalAction => DrainedServes(w.rt, c);
    case Crash(i) => ExitServes(w.rt, i, c);
  }

  /** In every run with trusted calls, a running process with an active revision runs that revision's configuration. */
  lemma {:induction false} RunningIsActive(w: World, actions: seq<ApplyRuns.Action>, born: Births)
    requires Invariant(w.db, born) && OneChild(w.rt) && Agree(w)
    requires forall i :: 0 <= i < |actions| ==> ApplyRuns.Admissible(actions[i], born) && Trusted(actions[i])
    ensures Agree(ApplyRuns.Run(w, actions))
    decreases |actions|
  {
    hide Invariant;
    hide OneChild;
    hide Agree;
    hide Trusted;
    hide ApplyRuns.Admissible;
    hide ApplyRuns.Step;
    hide Follows;
    hide UpToDate;
    if |actions| > 0 {
      ApplyRuns.StepKeeps(w, actions[0], born);
      ServiceOneChild(w, actions[0]);
      ServiceAgrees(w, actions[0], born);
      RunningIsActive(ApplyRuns.Step(w, actions[0]), actions[1..], born);
    }
  }
}
