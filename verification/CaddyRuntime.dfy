/** The managed Caddy process: launching, reloading and stopping it, and the non-blocking check that guards them. */
module CaddyRuntime {
  import opened Ordering
  import opened CaddyConfig

  type Environment = map<string, string>

  datatype ErrorCode =
    CaddyValidateFailed | CaddyStartFailed | CaddyReloadFailed | CaddyStopFailed | RuntimeUnhealthy | DatabaseFailed

  datatype RuntimeState = RuntimeStopped | RuntimeFailed | RuntimeDegraded | RuntimeRunning

  /** A launched process.  Its exit is reported once, as a message on the channel made for it. */
  datatype Process = Process(config: Config, environment: Environment, alive: bool, message: bool)

  /** The manager's fields, with every process launched so far; command is the position of the current one. */
  datatype Fields = Fields(
    processes: seq<Process>, command: Option<nat>, environment: Environment, lastError: Option<ErrorCode>)

  type Runtime = rt: Fields | rt.command.Some? ==> rt.command.value < |rt.processes|
    witness Fields([], None, map[], None)

  const INITIAL: Runtime := Fields([], None, map[], None)

  // ----- what the outside world decides ---------------------------------------------------------

  /** One round of the start-up loop. */
  datatype Poll = Healthy | Exited | Expired | Waiting

  datatype StartOutcome = StartOutcome(invalid: Option<ErrorCode>, saves: bool, launches: bool, polls: seq<Poll>)

  /** Lost: the new configuration took effect, but the call reported an error. */
  datatype AdminReload = Rejected | Lost | Accepted

  datatype ReloadOutcome = ReloadOutcome(invalid: Option<ErrorCode>, admin: AdminReload, saves: bool)

  datatype Shutdown = Exits(clean: bool) | Cancelled | TimesOut

  datatype StopOutcome = StopOutcome(accepted: bool, shutdown: Shutdown)

  datatype CertificateFile = Missing | Unreadable | Stored(expired: bool)

  datatype CertificateState =
    CertificateWaiting | CertificateIssuing | CertificateReady | CertificateExpired | CertificateFailed | CertificateUnknown

  /** One certificate-status request: whether its context has ended, the renewal entered for the hostname, the
      certificate file, and whether the log holds a recent ACME error. */
  datatype CertificateRequest = CertificateRequest(
    ended: bool, renewal: Option<CertificateState>, file: CertificateFile, acmeError: bool)

  // ----- specification ----------------------------------------------------------------------------

  function Current(rt: Runtime): Process
    requires rt.command.Some?
  {
    rt.processes[rt.command.value]
  }

  /** The current process replaced. */
  function Update(rt: Runtime, p: Process): (r: Runtime)
    requires rt.command.Some?
  {
    rt.(processes := rt.processes[rt.command.value := p])
  }

  /** What runningLocked answers: a process was launched and its exit message is not waiting. */
  predicate Running(rt: Runtime) { rt.command.Some? && !Current(rt).message }

  /** What runningLocked leaves behind: asking takes the message. */
  function Drained(rt: Runtime): Runtime {
    if rt.command.Some? && Current(rt).message then Update(rt, Current(rt).(message := false)) else rt
  }

  /** The current process is gone. */
  function Dead(rt: Runtime, message: bool): Runtime
    requires rt.command.Some?
  {
    Update(rt, Current(rt).(alive := false, message := message)).(command := None)
  }

  function Failing(rt: Runtime, code: ErrorCode): Runtime { rt.(lastError := Some(code)) }

  /** The first poll that decides; the health context expires in the end. */
  function Decisive(polls: seq<Poll>): Poll {
    if |polls| == 0 then Expired
    else if polls[0].Waiting? then Decisive(polls[1..])
    else polls[0]
  }

  /** StartWithEnvironment. */
  function Started(rt: Runtime, config: Config, env: Environment, o: StartOutcome): (Runtime, Option<ErrorCode>) {
    if Running(rt) then (rt, None)
    else
      var idle := Drained(rt);
      if o.invalid.Some? then (Failing(idle, o.invalid.value), o.invalid)
      else if !o.saves || !o.launches then (Failing(idle, CaddyStartFailed), Some(CaddyStartFailed))
      else
        var launched: Runtime := idle.(
          processes := idle.processes + [Process(config, env, true, false)], command := Some(|idle.processes|));
        match Decisive(o.polls)
        case Healthy => (launched.(lastError := None, environment := env), None)
        case Exited => (Failing(Dead(launched, false), CaddyStartFailed), Some(CaddyStartFailed))
        case _ => (Failing(Dead(launched, true), RuntimeUnhealthy), Some(RuntimeUnhealthy))
  }

  /** Reload. */
  function Reloaded(rt: Runtime, config: Config, o: ReloadOutcome): (Runtime, Option<ErrorCode>) {
    if !Running(rt) then (Failing(Drained(rt), CaddyReloadFailed), Some(CaddyReloadFailed))
    else if o.invalid.Some? then (Failing(rt, o.invalid.value), o.invalid)
    else
      var changed := if o.admin.Rejected? then rt else Update(rt, Current(rt).(config := config));
      if !o.admin.Accepted? || !o.saves then (Failing(changed, CaddyReloadFailed), Some(CaddyReloadFailed))
      else (changed.(lastError := None), None)
  }

  /** A channel that has delivered its message stays silent, so waiting for an exit already reported times out. */
  function Awaited(rt: Runtime, s: Shutdown): Shutdown
    requires rt.command.Some?
  {
    if s.Exits? && !Current(rt).alive then TimesOut else s
  }

  /** Stop. */
  function StoppedBy(rt: Runtime, o: StopOutcome): (Runtime, Option<ErrorCode>) {
    if !Running(rt) then (Drained(rt).(command := None, lastError := None), None)
    else if !o.accepted then (Failing(rt, CaddyStopFailed), Some(CaddyStopFailed))
    else match Awaited(rt, o.shutdown)
      case Exits(true) => (Dead(rt, false).(lastError := None), None)
      case Exits(false) => (Failing(Dead(rt, false), CaddyStopFailed), Some(CaddyStopFailed))
      case Cancelled => (Failing(rt, CaddyStopFailed), Some(CaddyStopFailed))
      case TimesOut => (Failing(Dead(rt, true), CaddyStopFailed), Some(CaddyStopFailed))
  }

  /** StatusSnapshot. */
  function Observed(rt: Runtime, healthy: bool): (Runtime, RuntimeState) {
    if !Running(rt) then (Drained(rt).(command := None), if rt.lastError.Some? then RuntimeFailed else RuntimeStopped)
    else (rt, if healthy then RuntimeRunning else RuntimeDegraded)
  }

  /** CertificateStatus. */
  function Certified(rt: Runtime, c: CertificateRequest): (Runtime, CertificateState) {
    if c.ended then (rt, CertificateUnknown)
    else (Drained(rt), if c.renewal.Some? then c.renewal.value
                       else match c.file
                         case Stored(expired) => if expired then CertificateExpired else CertificateReady
                         case Unreadable => CertificateFailed
                         case Missing =>
                           if rt.lastError.Some? || c.acmeError then CertificateFailed
                           else if Running(rt) then CertificateIssuing
                           else CertificateWaiting)
  }

  function Lookup(env: Environment, k: string): string { if k in env then env[k] else "" }

  predicate SameEnvironment(has: Environment, wants: Environment) {
    |has| == |wants| && forall k :: k in wants ==> Lookup(has, k) == wants[k]
  }

  /** EnvironmentMatches. */
  function Matched(rt: Runtime, env: Environment): (Runtime, bool) {
    if !Running(rt) then (Drained(rt), false) else (rt, SameEnvironment(rt.environment, env))
  }

  // ----- the manager ---------------------------------------------------------------------------------

  class RuntimeManager {
    var processes: seq<Process>
    var command: Option<nat>
    var environment: Environment
    var lastError: Option<ErrorCode>

    ghost predicate Valid()
      reads this
    {
      command.Some? ==> command.value < |processes|
    }

    ghost function View(): Runtime
      requires Valid()
      reads this
    {
      Fields(processes, command, environment, lastError)
    }

    constructor ()
      ensures Valid() && View() == INITIAL
    {
      processes, command, environment, lastError := [], None, map[], None;
    }

    /** Asks without blocking whether the exit message has arrived; a message found is taken. */
    method RunningLocked() returns (running: bool)
      requires Valid()
      modifies this`processes
      ensures Valid() && running == Running(old(View())) && View() == Drained(old(View()))
    {
      if command.None? { return false; }
      var p := processes[command.value];
      if p.message {
        processes := processes[command.value := p.(message := false)];
        return false;
      }
      return true;
    }

    method RecordFailure(code: ErrorCode) returns (r: Option<ErrorCode>)
      requires Valid()
      modifies this`lastError
      ensures Valid() && View() == Failing(old(View()), code) && r == Some(code)
    {
      lastError := Some(code);
      return Some(code);
    }

    method StartWithEnvironment(config: Config, env: Environment, o: StartOutcome) returns (r: Option<ErrorCode>)
      requires Valid()
      modifies this
      ensures Valid() && (View(), r) == Started(old(View()), config, env, o)
    {
      var running := RunningLocked();
      if running { return None; }
      if o.invalid.Some? { r := RecordFailure(o.invalid.value); return; }
      if !o.saves { r := RecordFailure(CaddyStartFailed); return; }
      if !o.launches { r := RecordFailure(CaddyStartFailed); return; }
      processes, command := processes + [Process(config, env, true, false)], Some(|processes|);
      var k := |processes| - 1;
      var i := 0;
      while i < |o.polls|
        invariant 0 <= i <= |o.polls| && Decisive(o.polls[i..]) == Decisive(o.polls)
      {
        assert o.polls[i..][1..] == o.polls[i + 1..];
        match o.polls[i] {
          case Healthy =>
            lastError, environment := None, env;
            return None;
          case Exited =>
            processes, command := processes[k := processes[k].(alive := false)], None;
            r := RecordFailure(CaddyStartFailed);
            return;
          case Expired => break;
          case Waiting =>
        }
        i := i + 1;
      }
      processes, command := processes[k := processes[k].(alive := false, message := true)], None;
      r := RecordFailure(RuntimeUnhealthy);
    }

    method Reload(config: Config, o: ReloadOutcome) returns (r: Option<ErrorCode>)
      requires Valid()
      modifies this
      ensures Valid() && (View(), r) == Reloaded(old(View()), config, o)
    {
      var running := RunningLocked();
      if !running { r := RecordFailure(CaddyReloadFailed); return; }
      if o.invalid.Some? { r := RecordFailure(o.invalid.value); return; }
      if !o.admin.Rejected? { processes := processes[command.value := processes[command.value].(config := config)]; }
      if !o.admin.Accepted? { r := RecordFailure(CaddyReloadFailed); return; }
      if !o.saves { r := RecordFailure(CaddyReloadFailed); return; }
      lastError := None;
      return None;
    }

    method Stop(o: StopOutcome) returns (r: Option<ErrorCode>)
      requires Valid()
      modifies this
      ensures Valid() && (View(), r) == StoppedBy(old(View()), o)
    {
      var running := RunningLocked();
      if !running {
        command, lastError := None, None;
        return None;
      }
      if !o.accepted { r := RecordFailure(CaddyStopFailed); return; }
      var k := command.value;
      var p := processes[k];
      match o.shutdown {
        case Exits(clean) =>
          if p.alive {
            processes, command := processes[k := p.(alive := false)], None;
            if !clean { r := RecordFailure(CaddyStopFailed); return; }
            lastError := None;
            return None;
          }
        case Cancelled =>
          r := RecordFailure(CaddyStopFailed);
          return;
        case TimesOut =>
      }
      processes, command := processes[k := p.(alive := false, message := true)], None;
      r := RecordFailure(CaddyStopFailed);
    }

    method Status(healthy: bool) returns (s: RuntimeState)
      requires Valid()
      modifies this
      ensures Valid() && (View(), s) == Observed(old(View()), healthy)
    {
      var running := RunningLocked();
      if !running {
        command := None;
        return if lastError.Some? then RuntimeFailed else RuntimeStopped;
      }
      return if healthy then RuntimeRunning else RuntimeDegraded;
    }

    method CertificateStatus(c: CertificateRequest) returns (s: CertificateState)
      requires Valid()
      modifies this`processes
      ensures Valid() && (View(), s) == Certified(old(View()), c)
    {
      if c.ended { return CertificateUnknown; }
      var running := RunningLocked();
      if c.renewal.Some? { return c.renewal.value; }
      match c.file {
        case Stored(expired) => return if expired then CertificateExpired else CertificateReady;
        case Unreadable => return CertificateFailed;
        case Missing =>
      }
      if lastError.Some? { return CertificateFailed; }
      if c.acmeError { return CertificateFailed; }
      return if running then CertificateIssuing else CertificateWaiting;
    }

    method EnvironmentMatches(env: Environment) returns (same: bool)
      requires Valid()
      modifies this`processes
      ensures Valid() && (View(), same) == Matched(old(View()), env)
    {
      var running := RunningLocked();
      if !running { return false; }
      if |environment| != |env| { return false; }
      var rest := env.Keys;
      while rest != {}
        invariant rest <= env.Keys && forall k :: k in env.Keys - rest ==> Lookup(environment, k) == env[k]
      {
        var k :| k in rest;
        if Lookup(environment, k) != env[k] { return false; }
        rest := rest - {k};
      }
      return true;
    }
  }
}
