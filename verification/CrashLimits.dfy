/** What the service can and cannot do after the managed process has died. */
module CrashLimits {
  import opened Ordering
  import opened Domain
  import opened CaddyConfig
  import opened CaddyRuntime
  import opened RuntimeProperties
  import opened CompilerSpec
  import opened Tables
  import opened Database
  import opened Revisions
  import opened RevisionProperties
  import opened ApplySpec
  import opened ApplyProperties
  import opened RuntimeAgreement
  import opened AgreementLimits
  import ApplyAgreement
  import ApplyLimits
  import ApplyRuns
  import Snapshot

  /** Nothing answers on the admin endpoint of a dead process. */
  predicate Unreachable(a: Activation) { !a.restartHealth && !a.health && a.reload.admin.Rejected? }

  /** Nothing answers for the dead process, and a new one would start. */
  predicate Restartable(o: ApplyOracle) {
    !o.health && Unreachable(o.activation) && Starts(o.activation.start) && o.healthAfter && o.marks
  }

  // ----- the first apply after a crash ------------------------------------------------------------

  lemma ActivationAfterCrash(w: World, id: ID, created: bool, config: Config, env: Environment, changed: bool,
                             previous: Option<Config>, o: ApplyOracle)
    requires OneChild(w.rt) && Usable(w.db, id) && Restartable(o) && (!Running(w.rt) || Stale(w.rt))
    ensures var (after, r) := ActivateAndMark(w, id, created, config, env, changed, previous, o);
            && (r.Success? <==> !Running(w.rt))
            && if r.Success? then Alive(after.rt, config) else Stale(after.rt) && OneChild(after.rt)
  {
    hide Noted;
    hide MadeActive;
    hide OneChild;
    if Running(w.rt) {
      ReloadStale(w.rt, config, o.activation.reload);
    } else {
      hide Started;
      var gone := Observed(w.rt, o.activation.restartHealth).0;
      ObserveOneChild(w.rt, o.activation.restartHealth);
      assert gone == Observed(w.rt, o.activation.health).0 == Observed(gone, o.activation.health).0;
      StartOutcomeOf(gone, config, env, o.activation.start);
      AliveObserved(Started(gone, config, env, o.activation.start).0, config, o.healthAfter);
    }
  }

  lemma DeadOneChild(rt: Runtime)
    requires NoneAlive(rt)
    ensures OneChild(rt)
  {
  }

  lemma FinishAfterCrash(w: World, id: ID, created: bool, config: Config, hash: ConfigHash, env: Environment,
                         previous: Option<Revision>, o: ApplyOracle)
    requires NoneAlive(w.rt) && Usable(w.db, id) && Restartable(o)
    ensures var (after, r) := Finished(w, id, created, config, hash, env, previous, o);
            && (r.Success? <==> w.rt.command.None? || (Reported(w.rt) && env == map[]))
            && if r.Success? then Alive(after.rt, config) else Stale(after.rt) && OneChild(after.rt)
  {
    hide ActivateAndMark;
    hide OneChild;
    hide SameEnvironment;
    DeadOneChild(w.rt);
    ApplyAgreement.AskOneChild(w.rt, env);
    var (asked, changed) := EnvironmentChanged(w.rt, env);
    ObserveOneChild(asked, o.health);
    var observed := Observed(asked, o.health).0;
    assert !Running(asked) <==> w.rt.command.None? || (Reported(w.rt) && env == map[]);
    ActivationAfterCrash(w.(rt := asked), id, created, config, env, changed, OptionalConfig(previous), o);
    ActivationAfterCrash(w.(rt := observed), id, created, config, env, changed, OptionalConfig(previous), o);
  }

  /** When no process lives and a new one would start, an apply brings Caddy back exactly when the manager has forgotten the
      dead process, as it does at a status request or a stop, or when nobody has asked about it and the state needs no
      secrets, for otherwise the apply itself asks.  If the apply fails, the manager is stale. */
  lemma CrashRecovery(w: World, o: ApplyOracle, born: Births)
    requires Invariant(w.db, born) && GoodLanding(o.before, born) && GoodLanding(o.after, born)
    requires NoneAlive(w.rt) && Records(w, o) && Restartable(o)
    ensures var (after, r) := Apply(w, o);
            && (r.Success? <==> w.rt.command.None? || (Reported(w.rt) && o.environment.value == map[]))
            && if r.Success? then Alive(after.rt, Compiled(Load(w.db.tables)).json) else Stale(after.rt) && OneChild(after.rt)
  {
    hide Invariant;
    hide Snapshot.Valid;
    hide Compilable;
    hide Compiled;
    hide Load;
    hide Record;
    hide Finished;
    hide OneChild;
    hide NoneAlive;
    hide Alive;
    hide Restartable;
    hide Reported;
    hide Stale;
    ApplyLimits.RecordedUsable(w, o, born);
    var x, r := Load(w.db.tables), Record(Landed(w.db, o.before), Load(w.db.tables), o);
    FinishAfterCrash(World(Landed(r.db, o.after), w.rt), r.id, r.created, Compiled(x).json, Compiled(x).sha256,
                     o.environment.value, ActiveRevision(w.db), o);
  }

  /** A status request after the crash is enough, whatever secrets are needed. */
  lemma StatusThenApply(w: World, healthy: bool, o: ApplyOracle, born: Births)
    requires Invariant(w.db, born) && GoodLanding(o.before, born) && GoodLanding(o.after, born)
    requires NoneAlive(w.rt) && !Stale(w.rt) && Records(w, o) && Restartable(o)
    ensures Apply(ApplyRuns.Step(w, ApplyRuns.StatusAction(healthy)), o).1.Success?
  {
    hide Apply;
    hide Invariant;
    hide Restartable;
    hide Records;
    var asked := ApplyRuns.Step(w, ApplyRuns.StatusAction(healthy));
    assert asked.db == w.db && asked.rt.command.None? && NoneAlive(asked.rt);
    SameRecords(w, asked, o);
    CrashRecovery(asked, o, born);
  }

  lemma SameRecords(w: World, w': World, o: ApplyOracle)
    requires w'.db == w.db && Records(w, o)
    ensures Records(w', o)
  {
  }

  // ----- a stale manager stops the service for good ---------------------------------------------------

  /** While the manager is stale no call of this action reaches a Caddy. */
  predicate Silent(a: ApplyRuns.Action) {
    match a
    case ApplyAction(o) => SilentApply(o)
    case StartAction(o, _) => SilentStart(o)
    case StopAction(o) => !o.accepted
    case RestoreAction(_, o) => Unreachable(o.activation)
    case _ => true
  }

  predicate SilentApply(o: ApplyOracle) { !o.health && Unreachable(o.activation) }

  predicate SilentStart(o: StartOracle) { !o.health && !o.stop.accepted && SilentApply(o.apply) }

  /** The manager is stale and nothing was launched meanwhile. */
  ghost predicate Stuck(rt: Runtime, after: Runtime) { OneChild(after) && Stale(after) && |after.processes| == |rt.processes| }

  lemma StuckChecked(rt: Runtime, config: Config, env: Environment, changed: bool, previous: Option<Config>, was: Environment,
                     a: Activation, health: bool)
    requires OneChild(rt) && Stale(rt) && Unreachable(a)
    ensures var (after, failure) := Checked(rt, config, env, changed, previous, was, a, health);
            failure.Some? && Stuck(rt, after)
  {
    hide OneChild;
    ReloadStale(rt, config, a.reload);
  }

  lemma StuckAsked(rt: Runtime, env: Environment)
    requires OneChild(rt) && Stale(rt)
    ensures EnvironmentChanged(rt, env).0 == rt
  {
  }

  lemma StuckFinish(w: World, id: ID, created: bool, config: Config, hash: ConfigHash, env: Environment,
                    previous: Option<Revision>, o: ApplyOracle)
    requires OneChild(w.rt) && Stale(w.rt) && id in w.db.revisions && SilentApply(o)
    ensures var (after, r) := Finished(w, id, created, config, hash, env, previous, o); r.Failure? && Stuck(w.rt, after.rt)
  {
    hide OneChild;
    hide Checked;
    hide EnvironmentChanged;
    hide Noted;
    StuckAsked(w.rt, env);
    var changed := EnvironmentChanged(w.rt, env).1;
    StuckChecked(w.rt, config, env, changed, OptionalConfig(previous), w.rt.environment, o.activation, o.healthAfter);
  }

  lemma StuckApply(w: World, o: ApplyOracle)
    requires OneChild(w.rt) && Stale(w.rt) && SilentApply(o)
    ensures Apply(w, o).1.Failure? && Stuck(w.rt, Apply(w, o).0.rt)
  {
    hide Snapshot.Valid;
    hide Compilable;
    hide Compiled;
    hide Load;
    hide Record;
    hide Finished;
    hide OneChild;
    hide SilentApply;
    hide Stale;
    if Records(w, o) {
      var x, r := Load(w.db.tables), Record(Landed(w.db, o.before), Load(w.db.tables), o);
      ApplyAgreement.RecordStored(Landed(w.db, o.before), x, o);
      StuckFinish(World(Landed(r.db, o.after), w.rt), r.id, r.created, Compiled(x).json, Compiled(x).sha256,
                  o.environment.value, ActiveRevision(w.db), o);
    }
  }

  lemma StuckStart(w: World, o: StartOracle, restart: bool)
    requires OneChild(w.rt) && Stale(w.rt) && SilentStart(o)
    ensures !ApplySpec.Start(w, o, restart).1 && Stuck(w.rt, ApplySpec.Start(w, o, restart).0.rt)
  {
    hide OneChild;
    hide Apply;
    hide SilentApply;
    hide Snapshot.Parsed;
    StuckApply(w, o.apply);
    StopOneChild(w.rt, o.stop);
  }

  lemma StuckRestore(w: World, id: ID, o: RestoreOracle)
    requires OneChild(w.rt) && Stale(w.rt) && Unreachable(o.activation)
    ensures Restore(w, id, o).1.Failure? && Stuck(w.rt, Restore(w, id, o).0.rt)
  {
    hide OneChild;
    hide Checked;
    hide PutBack;
    hide Verified;
    hide Restorable;
    hide EnvironmentChanged;
    hide RestoredTables;
    if Activates(w.db, id, o) {
      var env := o.environment.value;
      StuckAsked(w.rt, env);
      StuckChecked(w.rt, w.db.revisions[id].json, env, EnvironmentChanged(w.rt, env).1, OptionalConfig(ActiveRevision(w.db)),
                   w.rt.environment, o.activation, o.healthAfter);
    }
  }

  lemma StuckStop(rt: Runtime, o: StopOutcome)
    requires OneChild(rt) && Stale(rt) && !o.accepted
    ensures StoppedBy(rt, o).1.Some? && Stuck(rt, StoppedBy(rt, o).0)
  {
  }

  lemma StuckAsks(rt: Runtime, healthy: bool, c: CertificateRequest, i: nat)
    requires OneChild(rt) && Stale(rt)
    ensures Observed(rt, healthy).0 == rt && Certified(rt, c).0 == rt && Drained(rt) == rt && RuntimeProperties.Exited(rt, i) == rt
  {
  }

  lemma StuckStep(w: World, a: ApplyRuns.Action)
    requires OneChild(w.rt) && Stale(w.rt) && Silent(a)
    ensures Stuck(w.rt, ApplyRuns.Step(w, a).rt)
  {
    hide OneChild;
    hide Stale;
    hide Apply;
    hide ApplySpec.Start;
    hide Restore;
    hide StoppedBy;
    hide Observed;
    hide Certified;
    hide Drained;
    hide RuntimeProperties.Exited;
    hide SilentApply;
    hide SilentStart;
    match a
    case ApplyAction(o) => StuckApply(w, o);
    case StartAction(o, restart) => StuckStart(w, o, restart);
    case StopAction(o) => StuckStop(w.rt, o);
    case RestoreAction(id, o) => StuckRestore(w, id, o);
    case StatusAction(healthy) => StuckAsks(w.rt, healthy, CertificateRequest(true, None, Missing, false), 0);
    case CertificateAction(c) => StuckAsks(w.rt, false, c, 0);
    case RenewalAction => StuckAsks(w.rt, false, CertificateRequest(true, None, Missing, false), 0);
    case Crash(i) => StuckAsks(w.rt, false, CertificateRequest(true, None, Missing, false), i);
    case _ =>
  }

  /** From a stale manager no run of the service launches anything, as long as nothing answers; applies, starts, restarts
      and restores keep failing. */
  lemma {:induction false} StuckForever(w: World, actions: seq<ApplyRuns.Action>)
    requires OneChild(w.rt) && Stale(w.rt) && forall i :: 0 <= i < |actions| ==> Silent(actions[i])
    ensures var after := ApplyRuns.Run(w, actions);
            && Stuck(w.rt, after.rt) && NoneAlive(after.rt)
            && (forall o :: SilentApply(o) ==> Apply(after, o).1.Failure?)
            && (forall o, restart :: SilentStart(o) ==> !ApplySpec.Start(after, o, restart).1)
            && (forall id, o: RestoreOracle :: Unreachable(o.activation) ==> Restore(after, id, o).1.Failure?)
    decreases |actions|
  {
    hide Silent;
    hide SilentApply;
    hide SilentStart;
    hide Unreachable;
    hide Apply;
    hide ApplySpec.Start;
    hide Restore;
    hide ApplyRuns.Step;
    if |actions| > 0 {
      StuckStep(w, actions[0]);
      StuckForever(ApplyRuns.Step(w, actions[0]), actions[1..]);
    } else {
      forall o | SilentApply(o) ensures Apply(w, o).1.Failure? { StuckApply(w, o); }
      forall o, restart | SilentStart(o) ensures !ApplySpec.Start(w, o, restart).1 { StuckStart(w, o, restart); }
      forall id, o: RestoreOracle | Unreachable(o.activation) ensures Restore(w, id, o).1.Failure? { StuckRestore(w, id, o); }
    }
  }

  // ----- how the service gets there --------------------------------------------------------------------------

  lemma CrashedThenAsked(rt: Runtime, config: Config, env: Environment, c: CertificateRequest)
    requires rt == Fields([Process(config, env, true, false)], Some(0), env, None) && !c.ended
    ensures var crashed := RuntimeProperties.Exited(rt, 0);
            OneChild(crashed) && Reported(crashed) && Stale(Certified(crashed, c).0) && OneChild(Certified(crashed, c).0)
  {
    var crashed := RuntimeProperties.Exited(rt, 0);
    ExitOneChild(rt, 0);
    CertificateOneChild(crashed, c);
  }

  /** A first apply, a crash, and one certificate-status request leave the service stuck, with a revision active. */
  lemma OnePollSticks(t: Tables, o: ApplyOracle, c: CertificateRequest, born: Births)
    requires GoodRows(t, born) && Snapshot.Valid(Load(t)) && ApplyLimits.AllWell(o) && !c.ended
    ensures var w := ApplyRuns.Run(World(Db(t, map[], None, None, true, 1), INITIAL),
                                   [ApplyRuns.ApplyAction(o), ApplyRuns.Crash(0), ApplyRuns.CertificateAction(c)]);
            OneChild(w.rt) && Stale(w.rt) && w.db.active.Some?
  {
    hide GoodRows;
    hide Snapshot.Valid;
    hide Load;
    hide Apply;
    hide OneChild;
    hide Stale;
    hide Certified;
    hide RuntimeProperties.Exited;
    hide Pending;
    hide Compilable;
    hide Compiled;
    hide Starts;
    hide ValidID;
    var w0 := World(Db(t, map[], None, None, true, 1), INITIAL);
    ApplyLimits.FirstApply(t, o, born);
    var w1 := Apply(w0, o).0;
    CrashedThenAsked(w1.rt, Compiled(Load(t)).json, o.environment.value, c);
    ThreeSteps(w0, ApplyRuns.ApplyAction(o), ApplyRuns.Crash(0), ApplyRuns.CertificateAction(c));
  }

  lemma ThreeSteps(w: World, a: ApplyRuns.Action, b: ApplyRuns.Action, c: ApplyRuns.Action)
    ensures ApplyRuns.Run(w, [a, b, c]) == ApplyRuns.Step(ApplyRuns.Step(ApplyRuns.Step(w, a), b), c)
  {
    hide ApplyRuns.Step;
    assert [a, b, c][1..] == [b, c] && [b, c][1..] == [c] && [c][1..] == [];
    var w1 := ApplyRuns.Step(w, a);
    var w2 := ApplyRuns.Step(w1, b);
    var w3 := ApplyRuns.Step(w2, c);
    assert ApplyRuns.Run(w3, []) == w3;
    assert ApplyRuns.Run(w2, [c]) == w3;
    assert ApplyRuns.Run(w1, [b, c]) == w3;
  }
}
