/** Caddy's side of forced certificate renewal: one job per request, one goroutine per job, one lock. */
module CaddyRenewal {
  import opened Ordering
  import opened Domain

  datatype JobState = Issuing | Canceling | Canceled | Succeeded | Failed

  /** A job; cancelled tells whether its context is done, running whether its goroutine still has to report. */
  datatype Job = Job(hostname: string, state: JobState, errorCode: string, cancelRequested: bool, cancelled: bool, running: bool)
  {
    predicate Active() { state.Issuing? || state.Canceling? }
  }

  /** Every job ever started, and the position of the one registered for each hostname. */
  datatype Registry = Registry(jobs: seq<Job>, current: map<string, nat>)

  const ERROR_CODE := "ACME_CERTIFICATE_ISSUANCE_FAILED"

  /** How ForceRenewCertificate ends. */
  datatype Outcome = Renewed | ContextCanceled | Refused

  datatype Answer = BadRequest | Unavailable | NotFound | Conflict(job: Job) | Accepted(job: Job) | Unchanged(job: Job)

  // ----- hostnames ------------------------------------------------------------------------------------

  function TrimDot(s: string): string { if |s| > 0 && s[|s| - 1] == '.' then s[..|s| - 1] else s }

  /** normalizeHostname. */
  function NormalizeHostname(value: string): Result<string> {
    var h := ToLower(TrimDot(TrimSpace(value)));
    if h == "" || ByteLength(h) > 253 || h[0] == '.' || ContainsAny(h, "/?#\\\"'\t\r\n") then Failure else Success(h)
  }

  lemma {:induction false} TrimmedEnds(s: string)
    ensures TrimSpace(s) != "" ==> !IsSpace(TrimSpace(s)[0]) && !IsSpace(TrimSpace(s)[|TrimSpace(s)| - 1])
    ensures |TrimSpace(s)| <= |s|
  {
    if |s| > 0 {
      if IsSpace(s[0]) { TrimmedEnds(s[1..]); }
      else if IsSpace(s[|s| - 1]) { TrimmedEnds(s[..|s| - 1]); }
    }
  }

  lemma LowerNotSpace(c: char)
    requires !IsSpace(c)
    ensures !IsSpace(LowerChar(c))
  {
  }

  lemma LowerTwice(s: string)
    ensures ToLower(ToLower(s)) == ToLower(s)
  {
  }

  /** Normalizing a normalized hostname changes nothing, unless it still ends in a dot or, where a dot was cut
      off, in white space: such spellings of one name are registered apart. */
  lemma NormalizeTwice(value: string)
    requires NormalizeHostname(value).Success?
    ensures var h := NormalizeHostname(value).value;
            NormalizeHostname(h) == Success(h) <==> h[|h| - 1] != '.' && !IsSpace(h[|h| - 1])
  {
    hide ByteLength;
    hide ContainsAny;
    var h, t := NormalizeHostname(value).value, TrimSpace(value);
    TrimmedEnds(value);
    LowerNotSpace(t[0]);
    LowerTwice(TrimDot(t));
    assert h[0] == LowerChar(t[0]);
    hide IsSpace;
    hide LowerChar;
    if IsSpace(h[|h| - 1]) {
      TrimmedEnds(h[..|h| - 1]);
      assert |TrimSpace(h)| < |h|;
    } else {
      assert TrimSpace(h) == h;
    }
  }

  // ----- specification: the critical sections -------------------------------------------------------------

  /** startRenewal. */
  function Start(g: Registry, host: string, available: bool): (Registry, Answer) {
    if !available then (g, Unavailable)
    else if host in g.current && g.current[host] < |g.jobs| && g.jobs[g.current[host]].Active()
    then (g, Conflict(g.jobs[g.current[host]]))
    else
      var job := Job(host, Issuing, "", false, false, true);
      (Registry(g.jobs + [job], g.current[host := |g.jobs|]), Accepted(job))
  }

  /** handleCancel, up to the unlock. */
  function Cancel(g: Registry, host: string): (Registry, Answer) {
    if host !in g.current || g.current[host] >= |g.jobs| then (g, NotFound)
    else
      var i := g.current[host];
      if !g.jobs[i].Active() then (g, Unchanged(g.jobs[i]))
      else
        var job := g.jobs[i].(cancelRequested := true, state := Canceling);
        (g.(jobs := g.jobs[i := job]), Accepted(job))
  }

  /** The context of a job ends: the cancel call after the unlock, or the end of Caddy's own context. */
  function ContextDone(g: Registry, i: nat): Registry {
    if i < |g.jobs| then g.(jobs := g.jobs[i := g.jobs[i].(cancelled := true)]) else g
  }

  function Finished(job: Job, outcome: Outcome): Job {
    if job.cancelRequested || outcome.ContextCanceled? || job.cancelled
    then job.(state := Canceled, errorCode := "", running := false)
    else if outcome.Refused? then job.(state := Failed, errorCode := ERROR_CODE, running := false)
    else job.(state := Succeeded, errorCode := "", running := false)
  }

  /** The report of a goroutine. */
  function Finish(g: Registry, i: nat, outcome: Outcome): Registry {
    if i < |g.jobs| && g.jobs[i].running then g.(jobs := g.jobs[i := Finished(g.jobs[i], outcome)]) else g
  }

  datatype Event =
    | StartRequest(host: string, available: bool)
    | CancelRequest(host: string)
    | Done(job: nat)
    | Report(job: nat, outcome: Outcome)

  function Step(g: Registry, e: Event): Registry {
    match e
    case StartRequest(host, available) => Start(g, host, available).0
    case CancelRequest(host) => Cancel(g, host).0
    case Done(i) => ContextDone(g, i)
    case Report(i, outcome) => Finish(g, i, outcome)
  }

  function Run(g: Registry, events: seq<Event>): Registry
    decreases |events|
  {
    if |events| == 0 then g else Run(Step(g, events[0]), events[1..])
  }

  // ----- the admin module ---------------------------------------------------------------------------------------

  class RenewalJob {
    const hostname: string
    var state: JobState
    var errorCode: string
    var cancelRequested: bool
    ghost var cancelled: bool
    ghost var running: bool
    ghost const number: nat

    constructor (hostname: string, ghost number: nat)
      ensures this.number == number && Value() == Job(hostname, Issuing, "", false, false, true)
    {
      this.hostname, this.number, state, errorCode := hostname, number, Issuing, "";
      cancelRequested, cancelled, running := false, false, true;
    }

    ghost function Value(): Job
      reads this
    {
      Job(hostname, state, errorCode, cancelRequested, cancelled, running)
    }
  }

  ghost function Values(s: seq<RenewalJob>): (r: seq<Job>)
    reads s
    ensures |r| == |s| && forall i :: 0 <= i < |s| ==> r[i] == s[i].Value()
  {
    if |s| == 0 then [] else Values(s[..|s| - 1]) + [s[|s| - 1].Value()]
  }

  lemma ValuesAdd(s: seq<RenewalJob>, job: RenewalJob)
    ensures Values(s + [job]) == Values(s) + [job.Value()]
  {
  }

  ghost function Numbers(jobs: map<string, RenewalJob>): (r: map<string, nat>)
    ensures r.Keys == jobs.Keys
    ensures forall h :: h in jobs ==> r[h] == jobs[h].number
  {
    map h | h in jobs :: jobs[h].number
  }

  lemma NumbersAdd(jobs: map<string, RenewalJob>, host: string, job: RenewalJob)
    ensures Numbers(jobs[host := job]) == Numbers(jobs)[host := job.number]
  {
  }

  class RenewalAdmin {
    var jobs: map<string, RenewalJob>
    ghost var started: seq<RenewalJob>

    ghost predicate Valid()
      reads this, started
    {
      && (forall i :: 0 <= i < |started| ==> started[i].number == i)
      && (forall h :: h in jobs ==> jobs[h] in started)
    }

    ghost function View(): Registry
      reads this, started
    {
      Registry(Values(started), Numbers(jobs))
    }

    constructor ()
      ensures Valid() && View() == Registry([], map[])
    {
      jobs, started := map[], [];
    }

    method StartRenewal(host: string, available: bool) returns (code: int, ghost answer: Answer)
      requires Valid()
      modifies this
      ensures Valid() && (View(), answer) == Start(old(View()), host, available)
      ensures code == if answer.Unavailable? then 503 else if answer.Conflict? then 409 else 202
      ensures old(started) <= started
    {
      hide Numbers;
      hide Values;
      if !available { return 503, Unavailable; }
      if host in jobs {
        assert started[jobs[host].number] == jobs[host];
        if jobs[host].state.Issuing? || jobs[host].state.Canceling? { return 409, Conflict(jobs[host].Value()); }
      }
      var job := new RenewalJob(host, |started|);
      ValuesAdd(started, job);
      NumbersAdd(jobs, host, job);
      jobs, started := jobs[host := job], started + [job];
      return 202, Accepted(job.Value());
    }

    method HandleCancel(host: string) returns (code: int, cancel: RenewalJob?, ghost answer: Answer)
      requires Valid()
      modifies started
      ensures Valid() && (View(), answer) == Cancel(old(View()), host)
      ensures code == if answer.NotFound? then 404 else if answer.Unchanged? then 200 else 202
      ensures answer.Accepted? ==> cancel != null && host in jobs && cancel == jobs[host]
    {
      if host !in jobs { return 404, null, NotFound; }
      var job := jobs[host];
      if !job.state.Issuing? && !job.state.Canceling? { return 200, null, Unchanged(job.Value()); }
      ghost var i := job.number;
      assert started[i] == job;
      job.cancelRequested, job.state := true, Canceling;
      assert Values(started) == old(Values(started))[i := job.Value()];
      return 202, job, Accepted(job.Value());
    }

    /** The context of a job ends. */
    ghost method EndContext(job: RenewalJob)
      requires Valid() && job in started
      modifies job`cancelled
      ensures Valid() && View() == ContextDone(old(View()), job.number)
    {
      assert started[job.number] == job;
      job.cancelled := true;
      assert Values(started) == old(Values(started))[job.number := job.Value()];
    }

    /** The end of runRenewal; canceled is errors.Is(ctx.Err(), context.Canceled). */
    method FinishRenewal(job: RenewalJob, outcome: Outcome, canceled: bool)
      requires Valid() && job in started && job.running && canceled == job.cancelled
      modifies job
      ensures Valid() && View() == Finish(old(View()), job.number, outcome)
    {
      hide Values;
      assert started[job.number] == job;
      job.running := false;
      if job.cancelRequested || outcome.ContextCanceled? || canceled {
        job.state, job.errorCode := Canceled, "";
      } else if outcome.Refused? {
        job.state, job.errorCode := Failed, ERROR_CODE;
      } else {
        job.state, job.errorCode := Succeeded, "";
      }
      assert job.Value() == Finished(old(job.Value()), outcome);
      assert Values(started) == old(Values(started))[job.number := job.Value()];
    }
  }

  // ----- what every interleaving keeps ------------------------------------------------------------------------------

  /** A running job is the active one registered for its hostname; the error code marks failure, and only a
      job whose cancellation was requested is canceling. */
  predicate Orderly(g: Registry, i: nat)
    requires i < |g.jobs|
  {
    var job := g.jobs[i];
    && (job.running <==> job.Active())
    && (job.Active() ==> job.hostname in g.current && g.current[job.hostname] == i)
    && (job.errorCode != "" <==> job.state.Failed?)
    && (job.cancelRequested ==> job.state.Canceling? || job.state.Canceled?)
    && (job.state.Canceling? ==> job.cancelRequested)
  }

  ghost predicate Invariant(g: Registry) {
    && (forall h :: h in g.current ==> g.current[h] < |g.jobs| && g.jobs[g.current[h]].hostname == h)
    && (forall i :: 0 <= i < |g.jobs| ==> Orderly(g, i))
  }

  /** Changing one job, not its hostname, in an orderly way. */
  lemma ChangeKeeps(g: Registry, i: nat, job: Job)
    requires Invariant(g) && i < |g.jobs| && job.hostname == g.jobs[i].hostname
    requires Orderly(g.(jobs := g.jobs[i := job]), i)
    ensures Invariant(g.(jobs := g.jobs[i := job]))
  {
    var g' := g.(jobs := g.jobs[i := job]);
    forall k | 0 <= k < |g'.jobs| ensures Orderly(g', k) {
      assert Orderly(g, k);
    }
  }

  lemma StartKeeps(g: Registry, host: string, available: bool)
    requires Invariant(g)
    ensures Invariant(Start(g, host, available).0)
  {
    var g' := Start(g, host, available).0;
    forall k | 0 <= k < |g'.jobs| ensures Orderly(g', k) {
      if k < |g.jobs| { assert Orderly(g, k); }
    }
  }

  lemma StepKeeps(g: Registry, e: Event)
    requires Invariant(g)
    ensures Invariant(Step(g, e))
  {
    match e
    case StartRequest(host, available) => StartKeeps(g, host, available);
    case CancelRequest(host) =>
      if Cancel(g, host).1.Accepted? {
        var i := g.current[host];
        assert Orderly(g, i);
        ChangeKeeps(g, i, Cancel(g, host).0.jobs[i]);
      }
    case Done(i) =>
      if i < |g.jobs| {
        assert Orderly(g, i);
        ChangeKeeps(g, i, g.jobs[i].(cancelled := true));
      }
    case Report(i, outcome) =>
      if i < |g.jobs| && g.jobs[i].running {
        assert Orderly(g, i);
        ChangeKeeps(g, i, Finished(g.jobs[i], outcome));
      }
  }

  /** How a job may change in one step. */
  predicate Progress(before: Job, after: Job) {
    && after.hostname == before.hostname
    && (before.cancelRequested ==> after.cancelRequested)
    && (!before.Active() ==> after.state == before.state && after.errorCode == before.errorCode)
    && (before.state.Canceling? ==> after.state.Canceling? || after.state.Canceled?)
  }

  ghost predicate AllProgress(g: Registry, g': Registry) {
    |g.jobs| <= |g'.jobs| && forall i :: 0 <= i < |g.jobs| ==> Progress(g.jobs[i], g'.jobs[i])
  }

  lemma StepProgress(g: Registry, e: Event)
    requires Invariant(g)
    ensures AllProgress(g, Step(g, e))
  {
    forall i | 0 <= i < |g.jobs| ensures i < |Step(g, e).jobs| && Progress(g.jobs[i], Step(g, e).jobs[i]) {
      assert Orderly(g, i);
    }
  }

  /** One goroutine per hostname. */
  ghost predicate OneRunning(g: Registry) {
    forall i, j :: 0 <= i < j < |g.jobs| && g.jobs[i].hostname == g.jobs[j].hostname ==> !(g.jobs[i].running && g.jobs[j].running)
  }

  lemma OrderlyRunning(g: Registry)
    requires Invariant(g)
    ensures OneRunning(g)
  {
    forall i, j | 0 <= i < j < |g.jobs| && g.jobs[i].hostname == g.jobs[j].hostname
      ensures !(g.jobs[i].running && g.jobs[j].running)
    {
      assert Orderly(g, i) && Orderly(g, j);
    }
  }

  lemma ProgressTransitive(g: Registry, g': Registry, g'': Registry)
    requires AllProgress(g, g') && AllProgress(g', g'')
    ensures AllProgress(g, g'')
  {
  }

  /** Under any interleaving of requests, context ends and reports: the invariant holds, at most one active job and
      one goroutine exist per hostname, and terminal states never change. */
  lemma {:induction false} AnyInterleaving(g: Registry, events: seq<Event>)
    requires Invariant(g)
    ensures Invariant(Run(g, events)) && OneRunning(Run(g, events)) && AllProgress(g, Run(g, events))
    decreases |events|
  {
    hide Step;
    hide Invariant;
    OrderlyRunning(g);
    if |events| > 0 {
      StepKeeps(g, events[0]);
      StepProgress(g, events[0]);
      AnyInterleaving(Step(g, events[0]), events[1..]);
      ProgressTransitive(g, Step(g, events[0]), Run(g, events));
    }
  }

  /** A job whose cancellation was accepted can only end CANCELED, whatever its renewal reports. */
  lemma AcceptedCancelWins(g: Registry, host: string, events: seq<Event>)
    requires Invariant(g) && Cancel(g, host).1.Accepted?
    ensures g.current[host] < |Run(Cancel(g, host).0, events).jobs|
    ensures var i := g.current[host];
            var job := Run(Cancel(g, host).0, events).jobs[i];
            job.state == if job.running then Canceling else Canceled
  {
    var after := Cancel(g, host).0;
    StepKeeps(g, CancelRequest(host));
    AnyInterleaving(after, events);
    var i := g.current[host];
    assert Progress(after.jobs[i], Run(after, events).jobs[i]) && Orderly(Run(after, events), i);
  }

  /** SUCCEEDED means the renewal reported success while nothing had cancelled it. */
  lemma SuccessIsEarned(g: Registry, i: nat, outcome: Outcome)
    requires Invariant(g) && i < |g.jobs| && g.jobs[i].Active()
    ensures Finish(g, i, outcome).jobs[i].state.Succeeded? <==>
            outcome.Renewed? && !g.jobs[i].cancelRequested && !g.jobs[i].cancelled
    ensures !Finish(g, i, outcome).jobs[i].Active()
  {
    assert Orderly(g, i);
  }

  lemma SpellingsNormalized()
    ensures NormalizeHostname("a.") == Success("a") && NormalizeHostname("a..") == Success("a.")
  {
    assert TrimSpace("a.") == "a." && TrimSpace("a..") == "a..";
    hide TrimSpace;
    assert TrimDot("a.") == "a" && TrimDot("a..") == "a." && ToLower("a") == "a" && ToLower("a.") == "a.";
  }

  /** Different hostnames get a job each. */
  lemma TwoJobs(host: string, other: string)
    requires host != other
    ensures var g := Run(Registry([], map[]), [StartRequest(host, true), StartRequest(other, true)]);
            |g.jobs| == 2 && g.jobs[0].Active() && g.jobs[0].hostname == host && g.jobs[1].Active() && g.jobs[1].hostname == other
  {
    var e1, e2 := StartRequest(host, true), StartRequest(other, true);
    var g1 := Step(Registry([], map[]), e1);
    var g2 := Step(g1, e2);
    assert [e1, e2][1..] == [e2] && [e2][1..] == [];
    assert Run(Registry([], map[]), [e1, e2]) == Run(g1, [e2]) == Run(g2, []) == g2;
  }

  /** Two spellings of one name: asked for with one and with two trailing dots, a hostname gets two active jobs. */
  lemma TwoSpellings()
    ensures NormalizeHostname("a.").Success? && NormalizeHostname("a..").Success?
    ensures var host, other := NormalizeHostname("a.").value, NormalizeHostname("a..").value;
            var g := Run(Registry([], map[]), [StartRequest(host, true), StartRequest(other, true)]);
            |g.jobs| == 2 && g.jobs[0].Active() && g.jobs[0].hostname == "a" && g.jobs[1].Active() && g.jobs[1].hostname == "a."
  {
    hide NormalizeHostname;
    hide Run;
    SpellingsNormalized();
    TwoJobs("a", "a.");
  }
}
