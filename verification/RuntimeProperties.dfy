/** What every run of the process manager keeps, and where its liveness check goes wrong. */
module RuntimeProperties {
  import opened Ordering
  import opened CaddyConfig
  import opened CaddyRuntime

  // ----- runs ------------------------------------------------------------------------------------

  /** A call of the manager, or the exit of a process, which may come between any two calls. */
  datatype Event =
    | Start(config: Config, environment: Environment, start: StartOutcome)
    | Reload(config: Config, reload: ReloadOutcome)
    | Stop(stop: StopOutcome)
    | Status(healthy: bool)
    | Matches(environment: Environment)
    | Certificate(request: CertificateRequest)
    | ForceRenewal
    | Exit(process: nat)

  function Exited(rt: Runtime, i: nat): Runtime {
    if i < |rt.processes| && rt.processes[i].alive
    then rt.(processes := rt.processes[i := rt.processes[i].(alive := false, message := true)])
    else rt
  }

  function Step(rt: Runtime, e: Event): Runtime {
    match e
    case Start(config, environment, o) => Started(rt, config, environment, o).0
    case Reload(config, o) => Reloaded(rt, config, o).0
    case Stop(o) => StoppedBy(rt, o).0
    case Status(healthy) => Observed(rt, healthy).0
    case Matches(environment) => Matched(rt, environment).0
    case Certificate(request) => Certified(rt, request).0
    case ForceRenewal => Drained(rt)
    case Exit(i) => Exited(rt, i)
  }

  function Run(rt: Runtime, events: seq<Event>): Runtime
    decreases |events|
  {
    if |events| == 0 then rt else Run(Step(rt, events[0]), events[1..])
  }

  // ----- at most one live process ---------------------------------------------------------------------

  /** A live process is the current one, has not reported an exit, and inherited the recorded environment. */
  ghost predicate OneChild(rt: Runtime) {
    forall i :: 0 <= i < |rt.processes| && rt.processes[i].alive ==>
                  rt.command == Some(i) && !rt.processes[i].message && rt.processes[i].environment == rt.environment
  }

  ghost predicate NoneAlive(rt: Runtime) { forall i :: 0 <= i < |rt.processes| ==> !rt.processes[i].alive }

  lemma StartOneChild(rt: Runtime, config: Config, env: Environment, o: StartOutcome)
    requires OneChild(rt)
    ensures OneChild(Started(rt, config, env, o).0)
  {
  }

  lemma ReloadOneChild(rt: Runtime, config: Config, o: ReloadOutcome)
    requires OneChild(rt)
    ensures OneChild(Reloaded(rt, config, o).0)
  {
  }

  lemma StopOneChild(rt: Runtime, o: StopOutcome)
    requires OneChild(rt)
    ensures OneChild(StoppedBy(rt, o).0)
  {
  }

  lemma ObserveOneChild(rt: Runtime, healthy: bool)
    requires OneChild(rt)
    ensures OneChild(Observed(rt, healthy).0)
  {
  }

  lemma MatchOneChild(rt: Runtime, env: Environment)
    requires OneChild(rt)
    ensures OneChild(Matched(rt, env).0)
  {
  }

  lemma AskedOneChild(rt: Runtime)
    requires OneChild(rt)
    ensures OneChild(Drained(rt))
  {
  }

  lemma CertificateOneChild(rt: Runtime, c: CertificateRequest)
    requires OneChild(rt)
    ensures OneChild(Certified(rt, c).0)
  {
    AskedOneChild(rt);
  }

  lemma ExitOneChild(rt: Runtime, i: nat)
    requires OneChild(rt)
    ensures OneChild(Exited(rt, i))
  {
  }

  lemma StepKeepsOneChild(rt: Runtime, e: Event)
    requires OneChild(rt)
    ensures OneChild(Step(rt, e))
  {
    hide OneChild;
    hide Started;
    hide Reloaded;
    hide StoppedBy;
    hide Observed;
    hide Matched;
    hide Certified;
    hide Drained;
    hide Exited;
    match e
    case Start(config, environment, o) => StartOneChild(rt, config, environment, o);
    case Reload(config, o) => ReloadOneChild(rt, config, o);
    case Stop(o) => StopOneChild(rt, o);
    case Status(healthy) => ObserveOneChild(rt, healthy);
    case Matches(environment) => MatchOneChild(rt, environment);
    case Certificate(request) => CertificateOneChild(rt, request);
    case ForceRenewal => AskedOneChild(rt);
    case Exit(i) => ExitOneChild(rt, i);
  }

  /** In every run at most one process is alive, and it is the one the manager knows. */
  lemma {:induction false} OneLiveProcess(rt: Runtime, events: seq<Event>)
    requires OneChild(rt)
    ensures OneChild(Run(rt, events))
    ensures var p := Run(rt, events).processes;
            forall i, j :: 0 <= i < j < |p| ==> !(p[i].alive && p[j].alive)
    decreases |events|
  {
    if |events| > 0 {
      StepKeepsOneChild(rt, events[0]);
      OneLiveProcess(Step(rt, events[0]), events[1..]);
    }
  }

  /** No step launches a process while an earlier one lives. */
  lemma LaunchesWhenDead(rt: Runtime, e: Event)
    requires OneChild(rt) && |Step(rt, e).processes| > |rt.processes|
    ensures e.Start? && NoneAlive(rt)
  {
  }

  // ----- how far the liveness check can be trusted --------------------------------------------------------

  /** The current process is dead and its exit message has been taken. */
  predicate Stale(rt: Runtime) { rt.command.Some? && !Current(rt).alive && !Current(rt).message }

  /** "Not running" always means dead; "running" is wrong in exactly one situation. */
  lemma RunningExact(rt: Runtime)
    requires OneChild(rt)
    ensures !Running(rt) ==> NoneAlive(rt)
    ensures Running(rt) <==> Stale(rt) || !NoneAlive(rt)
  {
  }

  /** The current process has exited and nobody has asked yet. */
  predicate Reported(rt: Runtime) { rt.command.Some? && Current(rt).message }

  /** The calls that ask whether the process is running and, on "no", keep the dead one as current. */
  predicate AsksOnly(e: Event) {
    || e.Matches? || e.Reload? || (e.Start? && (e.start.invalid.Some? || !e.start.saves || !e.start.launches))
    || (e.Certificate? && !e.request.ended) || e.ForceRenewal?
  }

  /** The check starts to lie exactly when such a call takes the message of a crashed process. */
  lemma StaleArises(rt: Runtime, e: Event)
    requires OneChild(rt) && !Stale(rt)
    ensures Stale(Step(rt, e)) <==> Reported(rt) && AsksOnly(e)
  {
  }

  /** A process that starts, exits, and is asked about once. */
  lemma StaleReached(config: Config, env: Environment, o: StartOutcome, ask: Event)
    requires o.invalid.None? && o.saves && o.launches && Decisive(o.polls).Healthy? && AsksOnly(ask)
    ensures OneChild(INITIAL) && Stale(Run(INITIAL, [Start(config, env, o), Exit(0), ask]))
  {
    var started := Step(INITIAL, Start(config, env, o));
    StartOneChild(INITIAL, config, env, o);
    var exited := Step(started, Exit(0));
    ExitOneChild(started, 0);
    assert started.processes == [Process(config, env, true, false)] && started.command == Some(0);
    assert Reported(exited);
    StaleArises(exited, ask);
    var asked := Step(exited, ask);
    hide Step;
    hide Stale;
    var events := [Start(config, env, o), Exit(0), ask];
    assert events[1..] == [Exit(0), ask] && [Exit(0), ask][1..] == [ask] && [ask][1..] == [];
    assert Run(asked, []) == asked;
    assert Run(exited, [ask]) == asked;
    assert Run(started, [Exit(0), ask]) == asked;
  }

  /** Polling the certificate of a crashed process: the first answer is that Caddy does not run, every later one that
      Caddy is requesting the certificate. */
  lemma PollingLies(rt: Runtime, c: CertificateRequest)
    requires OneChild(rt) && Reported(rt) && rt.lastError.None?
    requires !c.ended && c.renewal.None? && c.file.Missing? && !c.acmeError
    ensures var (asked, first) := Certified(rt, c);
            first == CertificateWaiting && Stale(asked) && Certified(asked, c) == (asked, CertificateIssuing)
  {
  }

  /** Nothing listens on the admin endpoint of a dead process. */
  predicate Unanswered(e: Event) { e.Stop? ==> !e.stop.accepted }

  lemma StaleStep(rt: Runtime, e: Event)
    requires OneChild(rt) && Stale(rt) && Unanswered(e)
    ensures OneChild(Step(rt, e)) && Stale(Step(rt, e)) && NoneAlive(Step(rt, e))
    ensures |Step(rt, e).processes| == |rt.processes|
    ensures e.Start? ==> Started(rt, e.config, e.environment, e.start).1.None?
    ensures e.Stop? ==> StoppedBy(rt, e.stop).1.Some?
  {
  }

  /** From then on no sequence of calls brings a process back: every Start reports success and launches
      nothing, and every Stop fails. */
  lemma {:induction false} StaleForever(rt: Runtime, events: seq<Event>)
    requires OneChild(rt) && Stale(rt) && forall i :: 0 <= i < |events| ==> Unanswered(events[i])
    ensures var after := Run(rt, events);
            Stale(after) && NoneAlive(after) && |after.processes| == |rt.processes|
    ensures forall config, environment, o :: Started(Run(rt, events), config, environment, o) == (Run(rt, events), None)
    decreases |events|
  {
    if |events| > 0 {
      StaleStep(rt, events[0]);
      StaleForever(Step(rt, events[0]), events[1..]);
    }
  }

  /** A status request instead of such a call recovers: the next start launches again. */
  lemma StatusRecovers(rt: Runtime, healthy: bool, config: Config, env: Environment, o: StartOutcome)
    requires OneChild(rt) && Reported(rt) && o.invalid.None? && o.saves && o.launches && Decisive(o.polls).Healthy?
    ensures var after := Started(Observed(rt, healthy).0, config, env, o);
            after.1.None? && after.0.command.Some? && Current(after.0) == Process(config, env, true, false)
  {
  }

  // ----- what a call says about the running configuration ------------------------------------------------------

  /** A successful start from "not running" leaves a live process with the configuration and environment asked for;
      a failed one leaves none. */
  lemma StartedRuns(rt: Runtime, config: Config, env: Environment, o: StartOutcome)
    requires OneChild(rt) && !Running(rt)
    ensures var (after, failure) := Started(rt, config, env, o);
            if failure.None? then after.command.Some? && Current(after) == Process(config, env, true, false)
            else NoneAlive(after)
  {
  }

  /** A failed reload may have taken effect: it did exactly when the admin call did, or only saving failed. */
  lemma ReloadedDespiteFailure(rt: Runtime, config: Config, o: ReloadOutcome)
    requires OneChild(rt) && rt.command.Some? && Current(rt).alive && Current(rt).config != config
    requires Reloaded(rt, config, o).1.Some?
    ensures Current(Reloaded(rt, config, o).0).config == config <==>
            o.invalid.None? && (o.admin.Lost? || (o.admin.Accepted? && !o.saves))
  {
  }

  /** A recorded failure is cleared exactly by a start that launches, a reload or a stop that succeeds; until then a
      status request that finds nothing running reports FAILED. */
  lemma FailureIsRemembered(rt: Runtime, e: Event)
    requires rt.lastError.Some?
    ensures Step(rt, e).lastError.None? <==>
            || (e.Start? && !Running(rt) && Started(rt, e.config, e.environment, e.start).1.None?)
            || (e.Reload? && Reloaded(rt, e.config, e.reload).1.None?)
            || (e.Stop? && StoppedBy(rt, e.stop).1.None?)
    ensures !Running(rt) ==> forall healthy :: Observed(rt, healthy).1 == RuntimeFailed
  {
  }

  /** The calls that may clear a recorded failure: a start that comes up, a reload that works, any stop. */
  predicate MayClear(e: Event) {
    match e
    case Start(_, _, o) => o.invalid.None? && o.saves && o.launches && Decisive(o.polls).Healthy?
    case Reload(_, o) => o.invalid.None? && o.admin.Accepted? && o.saves
    case Stop(_) => true
    case _ => false
  }

  /** In every run without such a call a failure stays recorded, and FAILED is reported whenever nothing runs. */
  lemma {:induction false} FailureStays(rt: Runtime, events: seq<Event>)
    requires rt.lastError.Some? && forall i :: 0 <= i < |events| ==> !MayClear(events[i])
    ensures var after := Run(rt, events);
            after.lastError.Some? && (!Running(after) ==> forall healthy :: Observed(after, healthy).1 == RuntimeFailed)
    decreases |events|
  {
    if |events| > 0 {
      var e := events[0];
      FailureIsRemembered(rt, e);
      assert Step(rt, e).lastError.Some?;
      FailureStays(Step(rt, e), events[1..]);
    }
  }

  lemma SubmapEqual(a: Environment, b: Environment)
    requires |a| == |b| && forall k :: k in b ==> k in a && a[k] == b[k]
    ensures a == b
  {
    assert a.Keys * b.Keys == b.Keys;
    assert |a.Keys - b.Keys| == 0;
  }

  lemma SameWhenFilled(has: Environment, wants: Environment)
    requires forall k :: k in wants ==> wants[k] != ""
    ensures SameEnvironment(has, wants) <==> has == wants
  {
    if SameEnvironment(has, wants) { SubmapEqual(has, wants); }
  }

  lemma {:induction false} LongName(names: set<string>) returns (fresh': string)
    ensures forall n :: n in names ==> |n| < |fresh'|
    decreases names
  {
    fresh' := "x";
    if names != {} {
      var n :| n in names;
      var rest := LongName(names - {n});
      fresh' := if |n| < |rest| then rest else n + "x";
    }
  }

  lemma SameDespiteBlank(wants: Environment, k: string) returns (has: Environment)
    requires k in wants && wants[k] == ""
    ensures SameEnvironment(has, wants) && has != wants
  {
    var other := LongName(wants.Keys);
    has := (wants - {k})[other := "x"];
    assert has.Keys == wants.Keys - {k} + {other};
    assert other in has && other !in wants;
  }

  /** The comparison is exact exactly when no requested value is empty. */
  lemma EnvironmentComparison(wants: Environment)
    ensures (forall has :: SameEnvironment(has, wants) <==> has == wants) <==> forall k :: k in wants ==> wants[k] != ""
  {
    hide SameEnvironment;
    if forall k :: k in wants ==> wants[k] != "" {
      forall has ensures SameEnvironment(has, wants) <==> has == wants { SameWhenFilled(has, wants); }
    } else {
      var k :| k in wants && wants[k] == "";
      var has := SameDespiteBlank(wants, k);
    }
  }
}
