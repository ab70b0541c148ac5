/** The daemon's side of forced renewal: entries by hostname, monitors that may outlive their entry, one lock. */
module DaemonRenewal {
  import opened Ordering
  import CaddyRuntime

  datatype RenewalState = Issuing | Failed

  /** How far the goroutine behind an entry is: asking Caddy to start, watching, about to record a failure,
      removed but not yet cancelled, done. */
  datatype Stage = Requesting | Watching | Failing | Retiring | Over

  datatype Renewal = Renewal(hostname: string, oldFingerprint: string, state: RenewalState, cancelled: bool, stage: Stage)

  /** Every renewal ever entered, and the position of the one entered for each hostname. */
  datatype Renewals = Renewals(all: seq<Renewal>, current: map<string, nat>)

  const EMPTY := Renewals([], map[])

  // ----- specification: the critical sections and what surrounds them ------------------------------------

  predicate IsCurrent(g: Renewals, i: nat) {
    i < |g.all| && g.all[i].hostname in g.current && g.current[g.all[i].hostname] == i
  }

  predicate Busy(g: Renewals, host: string) {
    host in g.current && g.current[host] < |g.all| && g.all[g.current[host]].state.Issuing?
  }

  /** ForceRenewCertificate up to the unlock; the certificate is the fingerprint of the stored one, if it can be read. */
  function Force(g: Renewals, host: string, running: bool, certificate: Option<string>): (Renewals, Option<nat>) {
    if !running || Busy(g, host) || certificate.None? then (g, None)
    else
      (Renewals(g.all + [Renewal(host, certificate.value, Issuing, false, Requesting)], g.current[host := |g.all|]), Some(|g.all|))
  }

  function At(g: Renewals, i: nat, stage: Stage): Renewals
    requires i < |g.all|
  {
    g.(all := g.all[i := g.all[i].(stage := stage)])
  }

  function Cancelled(g: Renewals, i: nat): Renewals
    requires i < |g.all|
  {
    g.(all := g.all[i := g.all[i].(cancelled := true)])
  }

  function Removed(g: Renewals, i: nat): Renewals
    requires IsCurrent(g, i)
  {
    g.(current := g.current - {g.all[i].hostname})
  }

  /** Caddy refused to start: the entry is removed if it is still this one, and the context ends after the unlock. */
  function ForceFailed(g: Renewals, i: nat): Renewals
    requires i < |g.all|
  {
    At(if IsCurrent(g, i) then Removed(g, i) else g, i, Retiring)
  }

  /** Finish, Clear, and the last part of a cancel request: if the entry is still this one, it is removed and its context ends. */
  function Retire(g: Renewals, i: nat): Renewals
    requires i < |g.all|
  {
    if IsCurrent(g, i) then Cancelled(Removed(g, i), i) else g
  }

  /** The locked part of failCertificateRenewal. */
  function RecordFailure(g: Renewals, i: nat): Renewals
    requires i < |g.all|
  {
    if IsCurrent(g, i) then Cancelled(g.(all := g.all[i := g.all[i].(state := Failed)]), i) else g
  }

  /** cancelRenewalsLocked. */
  function CancelAll(g: Renewals): Renewals {
    Renewals(seq(|g.all|, i requires 0 <= i < |g.all| => if IsCurrent(g, i) then g.all[i].(cancelled := true) else g.all[i]), map[])
  }

  /** cancelRenewalsLocked after some of its rounds. */
  function CancelFor(g: Renewals, done: set<string>): Renewals {
    Renewals(seq(|g.all|, i requires 0 <= i < |g.all| =>
               if IsCurrent(g, i) && g.all[i].hostname in done then g.all[i].(cancelled := true) else g.all[i]),
             g.current - done)
  }

  lemma CancelNone(g: Renewals)
    ensures CancelFor(g, {}) == g
  {
  }

  lemma CancelEvery(g: Renewals, done: set<string>)
    requires CancelFor(g, done).current == map[]
    ensures CancelFor(g, done) == CancelAll(g)
  {
    assert (g.current - done).Keys == g.current.Keys - done;
    assert forall i: nat :: IsCurrent(g, i) ==> g.all[i].hostname in g.current.Keys - (g.current.Keys - done);
    assert CancelFor(g, done).all == CancelAll(g).all;
  }

  lemma CancelOneMore(g: Renewals, done: set<string>, host: string, now: Renewals)
    requires now == CancelFor(g, done) && host in now.current
    requires forall h :: h in g.current ==> g.current[h] < |g.all| && g.all[g.current[h]].hostname == h
    ensures var i := now.current[host];
            i < |now.all| && CancelFor(g, done + {host}) == Renewals(now.all[i := now.all[i].(cancelled := true)], now.current - {host})
  {
  }

  datatype Event =
    | ForceRequest(host: string, running: bool, certificate: Option<string>)
    | Started(renewal: nat)
    | StartRefused(renewal: nat)
    | ContextEnds(renewal: nat)
    | WatchStops(renewal: nat)
    | RenewalDone(renewal: nat)
    | AdminCancel(renewal: nat)
    | FailureRecorded(renewal: nat)
    | CancelRequest(renewal: nat)
    | RuntimeRestart

  /** A step of a goroutine is possible at its own stage only. */
  function Step(g: Renewals, e: Event): Renewals {
    match e
    case ForceRequest(host, running, certificate) => Force(g, host, running, certificate).0
    case Started(i) => if i < |g.all| && g.all[i].stage.Requesting? then At(g, i, Watching) else g
    case StartRefused(i) => if i < |g.all| && g.all[i].stage.Requesting? then ForceFailed(g, i) else g
    case ContextEnds(i) => if i < |g.all| && g.all[i].stage.Retiring? then Cancelled(At(g, i, Over), i) else g
    case WatchStops(i) => if i < |g.all| && g.all[i].stage.Watching? && g.all[i].cancelled then At(g, i, Over) else g
    case RenewalDone(i) => if i < |g.all| && g.all[i].stage.Watching? then At(Retire(g, i), i, Over) else g
    case AdminCancel(i) => if i < |g.all| && g.all[i].stage.Watching? then At(g, i, Failing) else g
    case FailureRecorded(i) => if i < |g.all| && g.all[i].stage.Failing? then At(RecordFailure(g, i), i, Over) else g
    case CancelRequest(i) => if i < |g.all| then Retire(g, i) else g
    case RuntimeRestart => CancelAll(g)
  }

  function Run(g: Renewals, events: seq<Event>): Renewals
    decreases |events|
  {
    if |events| == 0 then g else Run(Step(g, events[0]), events[1..])
  }

  // ----- the manager's renewals map ---------------------------------------------------------------------------

  class CertificateRenewal {
    const hostname: string
    const oldFingerprint: string
    var state: RenewalState
    ghost var cancelled: bool
    ghost var stage: Stage
    ghost const number: nat

    constructor (hostname: string, oldFingerprint: string, ghost number: nat)
      ensures this.number == number && Value() == Renewal(hostname, oldFingerprint, Issuing, false, Requesting)
    {
      this.hostname, this.oldFingerprint, this.number := hostname, oldFingerprint, number;
      state, cancelled, stage := Issuing, false, Requesting;
    }

    ghost function Value(): Renewal
      reads this
    {
      Renewal(hostname, oldFingerprint, state, cancelled, stage)
    }

    /** renewal.cancel(). */
    ghost method Cancel()
      modifies this`cancelled
      ensures cancelled
    {
      cancelled := true;
    }
  }

  ghost function Values(s: seq<CertificateRenewal>): (r: seq<Renewal>)
    reads s
    ensures |r| == |s| && forall i :: 0 <= i < |s| ==> r[i] == s[i].Value()
  {
    if |s| == 0 then [] else Values(s[..|s| - 1]) + [s[|s| - 1].Value()]
  }

  lemma ValuesAdd(s: seq<CertificateRenewal>, r: CertificateRenewal)
    ensures Values(s + [r]) == Values(s) + [r.Value()]
  {
  }

  ghost function Numbers(m: map<string, CertificateRenewal>): (r: map<string, nat>)
    ensures r.Keys == m.Keys
    ensures forall h :: h in m ==> r[h] == m[h].number
  {
    map h | h in m :: m[h].number
  }

  lemma NumbersAdd(m: map<string, CertificateRenewal>, host: string, r: CertificateRenewal)
    ensures Numbers(m[host := r]) == Numbers(m)[host := r.number]
  {
  }

  lemma NumbersRemove(m: map<string, CertificateRenewal>, host: string)
    ensures Numbers(m - {host}) == Numbers(m) - {host}
  {
  }

  class RenewalManager {
    var renewals: map<string, CertificateRenewal>
    ghost var entered: seq<CertificateRenewal>

    ghost predicate Valid()
      reads this, entered
    {
      && (forall i :: 0 <= i < |entered| ==> entered[i].number == i)
      && (forall h :: h in renewals ==> renewals[h] in entered)
    }

    ghost function View(): Renewals
      reads this, entered
    {
      Renewals(Values(entered), Numbers(renewals))
    }

    constructor ()
      ensures Valid() && View() == EMPTY
    {
      renewals, entered := map[], [];
    }

    /** The entry for a hostname, unless one is issuing or the certificate cannot be read. */
    method Enter(host: string, certificate: Option<string>) returns (entry: CertificateRenewal?)
      requires Valid()
      modifies this
      ensures Valid() && View() == Force(old(View()), host, true, certificate).0
      ensures (entry != null) == Force(old(View()), host, true, certificate).1.Some?
      ensures entry != null ==> host in renewals && renewals[host] == entry && fresh(entry)
    {
      hide Values;
      hide Numbers;
      if host in renewals {
        assert entered[renewals[host].number] == renewals[host];
        if renewals[host].state.Issuing? { return null; }
      }
      if certificate.None? { return null; }
      var renewal := new CertificateRenewal(host, certificate.value, |entered|);
      ValuesAdd(entered, renewal);
      NumbersAdd(renewals, host, renewal);
      renewals, entered := renewals[host := renewal], entered + [renewal];
      return renewal;
    }

    /** ForceRenewCertificate, up to the unlock, for a name that is not blank and a context that has not ended. */
    method ForceRenew(runtime: CaddyRuntime.RuntimeManager, host: string, certificate: Option<string>)
      returns (entry: CertificateRenewal?)
      requires Valid() && runtime.Valid()
      modifies this, runtime`processes
      ensures runtime.Valid() && runtime.View() == CaddyRuntime.Drained(old(runtime.View()))
      ensures Valid() && View() == Force(old(View()), host, CaddyRuntime.Running(old(runtime.View())), certificate).0
      ensures (entry != null) == Force(old(View()), host, CaddyRuntime.Running(old(runtime.View())), certificate).1.Some?
      ensures entry != null ==> host in renewals && renewals[host] == entry && fresh(entry)
    {
      hide Values;
      hide Numbers;
      hide Busy;
      var running := runtime.RunningLocked();
      if !running { return null; }
      entry := Enter(host, certificate);
    }

    /** Whether the map still holds this entry. */
    method Holds(r: CertificateRenewal) returns (same: bool)
      requires Valid() && r in entered
      ensures same == IsCurrent(View(), r.number)
    {
      hide Values;
      hide Numbers;
      assert entered[r.number] == r;
      return r.hostname in renewals && renewals[r.hostname] == r;
    }

    /** The cleanup after Caddy refused to start the renewal, up to the unlock. */
    method StartRefusedLocked(r: CertificateRenewal)
      requires Valid() && r in entered
      modifies this`renewals, r`stage
      ensures Valid() && View() == ForceFailed(old(View()), r.number)
    {
      hide Values;
      hide Numbers;
      var same := Holds(r);
      assert entered[r.number] == r;
      if same {
        NumbersRemove(renewals, r.hostname);
        renewals := renewals - {r.hostname};
      }
      r.stage := Retiring;
      assert Values(entered) == old(Values(entered))[r.number := r.Value()];
    }

    /** finishCertificateRenewal without an error, clearCertificateRenewal, and the end of CancelRenewCertificate. */
    method RetireLocked(r: CertificateRenewal)
      requires Valid() && r in entered
      modifies this`renewals, r`cancelled
      ensures Valid() && View() == Retire(old(View()), r.number)
    {
      hide Values;
      hide Numbers;
      var same := Holds(r);
      if !same { return; }
      assert entered[r.number] == r;
      NumbersRemove(renewals, r.hostname);
      renewals := renewals - {r.hostname};
      r.Cancel();
      assert Values(entered) == old(Values(entered))[r.number := r.Value()];
    }

    /** The locked part of failCertificateRenewal. */
    method FailLocked(r: CertificateRenewal)
      requires Valid() && r in entered
      modifies r`state, r`cancelled
      ensures Valid() && View() == RecordFailure(old(View()), r.number)
    {
      hide Values;
      hide Numbers;
      var same := Holds(r);
      if !same { return; }
      assert entered[r.number] == r;
      r.state := Failed;
      r.Cancel();
      assert Values(entered) == old(Values(entered))[r.number := r.Value()];
    }

    /** The first part of CancelRenewCertificate: the issuing entry, if there is one. */
    method FindIssuing(host: string) returns (r: CertificateRenewal?)
      requires Valid()
      ensures (r != null) == Busy(View(), host)
      ensures r != null ==> r in entered && r.number == View().current[host]
    {
      hide Values;
      hide Numbers;
      if host !in renewals { return null; }
      assert entered[renewals[host].number] == renewals[host];
      if renewals[host].state.Issuing? { return renewals[host]; }
      return null;
    }

    /** One round of the loop below. */
    method CancelOne(host: string)
      requires Valid() && host in renewals
      modifies this`renewals, entered`cancelled
      ensures Valid() && entered == old(entered) && renewals == old(renewals) - {host}
      ensures var i, g := old(renewals[host].number), old(View());
              i < |g.all| && View() == Renewals(g.all[i := g.all[i].(cancelled := true)], g.current - {host})
    {
      hide Values;
      hide Numbers;
      var r := renewals[host];
      assert entered[r.number] == r;
      r.Cancel();
      assert Values(entered) == old(Values(entered))[r.number := r.Value()];
      NumbersRemove(renewals, host);
      renewals := renewals - {host};
    }

    /** Each entry sits under its hostname. */
    ghost predicate Keyed()
      reads this
    {
      forall h :: h in renewals ==> renewals[h].hostname == h
    }

    lemma KeyedView()
      requires Valid() && Keyed()
      ensures var g := View();
              forall h :: h in g.current ==> g.current[h] < |g.all| && g.all[g.current[h]].hostname == h
    {
    }

    /** cancelRenewalsLocked. */
    method CancelRenewalsLocked()
      requires Valid() && Keyed()
      modifies this`renewals, entered`cancelled
      ensures Valid() && View() == CancelAll(old(View()))
    {
      hide Values;
      hide Numbers;
      hide CancelFor;
      hide CancelAll;
      hide Valid;
      hide Keyed;
      ghost var g := View();
      ghost var done: set<string> := {};
      CancelNone(g);
      KeyedView();
      while renewals.Keys != {}
        invariant Valid() && entered == old(entered) && View() == CancelFor(g, done)
        decreases renewals.Keys
      {
        var host :| host in renewals.Keys;
        CancelOneMore(g, done, host, View());
        CancelOne(host);
        done := done + {host};
      }
      CancelEvery(g, done);
    }
  }

  // ----- what every interleaving keeps ---------------------------------------------------------------------

  /** An entry is current and issuing with a live context, or its context has ended or is about to. */
  predicate Sound(g: Renewals, i: nat)
    requires i < |g.all|
  {
    var r := g.all[i];
    && (r.state.Failed? ==> r.cancelled)
    && (IsCurrent(g, i) && r.state.Issuing? ==> !r.cancelled && !r.stage.Retiring? && !r.stage.Over?)
    && (!IsCurrent(g, i) ==> r.cancelled || r.stage.Retiring?)
  }

  ghost predicate Invariant(g: Renewals) {
    && (forall h :: h in g.current ==> g.current[h] < |g.all| && g.all[g.current[h]].hostname == h)
    && (forall i :: 0 <= i < |g.all| ==> Sound(g, i))
  }

  /** One renewal changed, in place. */
  lemma ChangeKeeps(g: Renewals, i: nat, r: Renewal)
    requires Invariant(g) && i < |g.all| && r.hostname == g.all[i].hostname && Sound(g.(all := g.all[i := r]), i)
    ensures Invariant(g.(all := g.all[i := r]))
  {
    var g' := g.(all := g.all[i := r]);
    forall k | 0 <= k < |g'.all| ensures Sound(g', k) { assert Sound(g, k); }
  }

  /** The current entry removed, with its context ended or ending. */
  lemma RemoveKeeps(g: Renewals, i: nat, r: Renewal)
    requires Invariant(g) && IsCurrent(g, i) && r.hostname == g.all[i].hostname && (r.cancelled || r.stage.Retiring?)
    requires r.state.Failed? ==> r.cancelled
    ensures Invariant(Renewals(g.all[i := r], g.current - {r.hostname}))
  {
    var g' := Renewals(g.all[i := r], g.current - {r.hostname});
    forall k | 0 <= k < |g'.all| ensures Sound(g', k) { assert Sound(g, k); }
  }

  lemma ForceKeeps(g: Renewals, host: string, running: bool, certificate: Option<string>)
    requires Invariant(g)
    ensures Invariant(Force(g, host, running, certificate).0)
  {
    var g' := Force(g, host, running, certificate).0;
    forall k | 0 <= k < |g'.all| ensures Sound(g', k) {
      if k < |g.all| { assert Sound(g, k); }
    }
  }

  lemma CancelAllKeeps(g: Renewals)
    requires Invariant(g)
    ensures Invariant(CancelAll(g))
  {
    forall k | 0 <= k < |g.all| ensures Sound(CancelAll(g), k) { assert Sound(g, k); }
  }

  /** A step of the goroutine, or of a cancel request, that holds renewal i. */
  predicate Owned(e: Event, i: nat) {
    match e
    case Started(k) => k == i
    case StartRefused(k) => k == i
    case ContextEnds(k) => k == i
    case WatchStops(k) => k == i
    case RenewalDone(k) => k == i
    case AdminCancel(k) => k == i
    case FailureRecorded(k) => k == i
    case CancelRequest(k) => k == i
    case _ => false
  }

  lemma OwnStepKeeps(g: Renewals, e: Event, i: nat)
    requires Invariant(g) && i < |g.all| && Owned(e, i)
    ensures Invariant(Step(g, e))
  {
    assert Sound(g, i);
    var g' := Step(g, e);
    if g'.current == g.current {
      ChangeKeeps(g, i, g'.all[i]);
      assert g' == g.(all := g.all[i := g'.all[i]]);
    } else {
      RemoveKeeps(g, i, g'.all[i]);
      assert g' == Renewals(g.all[i := g'.all[i]], g.current - {g.all[i].hostname});
    }
  }

  lemma StepKeeps(g: Renewals, e: Event)
    requires Invariant(g)
    ensures Invariant(Step(g, e))
  {
    match e
    case ForceRequest(host, running, certificate) => ForceKeeps(g, host, running, certificate);
    case RuntimeRestart => CancelAllKeeps(g);
    case Started(i) => if i < |g.all| { OwnStepKeeps(g, e, i); }
    case StartRefused(i) => if i < |g.all| { OwnStepKeeps(g, e, i); }
    case ContextEnds(i) => if i < |g.all| { OwnStepKeeps(g, e, i); }
    case WatchStops(i) => if i < |g.all| { OwnStepKeeps(g, e, i); }
    case RenewalDone(i) => if i < |g.all| { OwnStepKeeps(g, e, i); }
    case AdminCancel(i) => if i < |g.all| { OwnStepKeeps(g, e, i); }
    case FailureRecorded(i) => if i < |g.all| { OwnStepKeeps(g, e, i); }
    case CancelRequest(i) => if i < |g.all| { OwnStepKeeps(g, e, i); }
  }

  /** How a renewal may change in one step: failed stays failed, cancelled stays cancelled. */
  predicate Progress(before: Renewal, after: Renewal) {
    && after.hostname == before.hostname && after.oldFingerprint == before.oldFingerprint
    && (before.state.Failed? ==> after.state.Failed?) && (before.cancelled ==> after.cancelled)
  }

  lemma StepProgress(g: Renewals, e: Event)
    requires Invariant(g)
    ensures |g.all| <= |Step(g, e).all| && forall i :: 0 <= i < |g.all| ==> Progress(g.all[i], Step(g, e).all[i])
  {
  }

  /** An issuing entry is never overwritten: in one step it stays, or it is removed with its context ended or ending. */
  lemma NeverOverwritten(g: Renewals, e: Event, i: nat)
    requires Invariant(g) && IsCurrent(g, i) && g.all[i].state.Issuing?
    ensures var g' := Step(g, e);
            IsCurrent(g', i) || (g.all[i].hostname !in g'.current && (g'.all[i].cancelled || g'.all[i].stage.Retiring?))
  {
  }

  /** A step of another renewal's goroutine, however late, changes neither the entry for the hostname nor the
      renewal in it. */
  lemma SupersededIsHarmless(g: Renewals, e: Event, late: nat, i: nat)
    requires Invariant(g) && IsCurrent(g, i) && late != i && Owned(e, late)
    ensures IsCurrent(Step(g, e), i) && Step(g, e).all[i] == g.all[i]
  {
  }

  /** Under any interleaving of requests, goroutines, cancels and runtime restarts: entries sit under their own
      hostname, a failed entry has ended its context, a retired one has ended it or is about to, and at most one
      goroutine per hostname watches with a live context, for the current entry. */
  lemma {:induction false} AnyInterleaving(g: Renewals, events: seq<Event>)
    requires Invariant(g)
    ensures Invariant(Run(g, events)) && OneWatcher(Run(g, events))
    decreases |events|
  {
    hide Step;
    hide Invariant;
    InvariantWatcher(g);
    if |events| > 0 {
      StepKeeps(g, events[0]);
      AnyInterleaving(Step(g, events[0]), events[1..]);
    }
  }

  ghost predicate OneWatcher(g: Renewals) {
    forall i :: 0 <= i < |g.all| && g.all[i].stage.Watching? && !g.all[i].cancelled ==> IsCurrent(g, i) && g.all[i].state.Issuing?
  }

  lemma InvariantWatcher(g: Renewals)
    requires Invariant(g)
    ensures OneWatcher(g)
  {
    forall i | 0 <= i < |g.all| && g.all[i].stage.Watching? && !g.all[i].cancelled ensures IsCurrent(g, i) && g.all[i].state.Issuing? {
      assert Sound(g, i);
    }
  }

  // ----- a cancel that reaches the wrong renewal ----------------------------------------------------------------

  /** The renewal that a cancel by the hostname of renewal i reaches in Caddy: the one issuing for that name. */
  function Reached(g: Renewals, i: nat): Option<nat>
    requires i < |g.all|
  {
    if Busy(g, g.all[i].hostname) then Some(g.current[g.all[i].hostname]) else None
  }

  /** A watcher whose timer fired, and a cancel request after its unlock, ask Caddy to cancel by hostname, before they look
      whether their renewal was superseded.  They reach another renewal only if their own has ended, or is about to. */
  lemma WrongCancelIsLate(g: Renewals, i: nat)
    requires Invariant(g) && i < |g.all| && Reached(g, i).Some?
    ensures Reached(g, i) != Some(i) <==> g.all[i].cancelled || g.all[i].stage.Retiring?
    ensures g.all[i].stage.Watching? ==> (Reached(g, i) != Some(i) <==> g.all[i].cancelled)
  {
    assert Sound(g, i);
  }

  /** What one step does to the entry for a hostname: it stays, goes, or is entered anew. */
  lemma EntryStep(g: Renewals, e: Event, host: string)
    requires Invariant(g)
    ensures var g' := Step(g, e);
            host in g'.current ==> (host in g.current && g'.current[host] == g.current[host]) || g'.current[host] >= |g.all|
    ensures |Step(g, e).all| >= |g.all|
  {
  }

  lemma {:induction false} EntryAlong(g: Renewals, events: seq<Event>, host: string)
    requires Invariant(g)
    ensures var g' := Run(g, events);
            host in g'.current ==> (host in g.current && g'.current[host] == g.current[host]) || g'.current[host] >= |g.all|
    ensures |Run(g, events).all| >= |g.all| && Invariant(Run(g, events))
    decreases |events|
  {
    hide Step;
    hide Invariant;
    if |events| > 0 {
      StepKeeps(g, events[0]);
      EntryStep(g, events[0], host);
      EntryAlong(Step(g, events[0]), events[1..], host);
    }
  }

  lemma {:induction false} HostnameStays(g: Renewals, events: seq<Event>, i: nat)
    requires Invariant(g) && i < |g.all|
    ensures i < |Run(g, events).all| && Run(g, events).all[i].hostname == g.all[i].hostname
    decreases |events|
  {
    hide Step;
    hide Invariant;
    if |events| > 0 {
      StepKeeps(g, events[0]);
      StepProgress(g, events[0]);
      HostnameStays(Step(g, events[0]), events[1..], i);
    }
  }

  /** A cancel request captures the issuing entry of its hostname, and much may happen before its call reaches Caddy.  The
      call then reaches that renewal or one entered since, never an older one: another exactly if the captured one has
      ended meanwhile, or is about to. */
  lemma CancelReaches(g: Renewals, events: seq<Event>, i: nat)
    requires Invariant(g) && i < |g.all| && Reached(g, i) == Some(i)
    ensures var g' := Run(g, events);
            && i < |g'.all|
            && (Reached(g', i).Some? ==>
                  && (Reached(g', i) == Some(i) || Reached(g', i).value >= |g.all|)
                  && (Reached(g', i) != Some(i) <==> g'.all[i].cancelled || g'.all[i].stage.Retiring?))
  {
    hide Invariant;
    EntryAlong(g, events, g.all[i].hostname);
    HostnameStays(g, events, i);
    if Reached(Run(g, events), i).Some? { WrongCancelIsLate(Run(g, events), i); }
  }

  /** A renewal is entered, the runtime restarts, and a new renewal begins. */
  lemma Superseded(host: string, old': string, new': string)
    ensures var g := Run(EMPTY, [ForceRequest(host, true, Some(old')), Started(0), RuntimeRestart, ForceRequest(host, true, Some(new'))]);
            g == Renewals([Renewal(host, old', Issuing, true, Watching), Renewal(host, new', Issuing, false, Requesting)], map[host := 1])
  {
    var e1, e2, e3, e4 := ForceRequest(host, true, Some(old')), Started(0), RuntimeRestart, ForceRequest(host, true, Some(new'));
    var g1 := Step(EMPTY, e1);
    var g2 := Step(g1, e2);
    var g3 := Step(g2, e3);
    var g4 := Step(g3, e4);
    assert g3.all == [Renewal(host, old', Issuing, true, Watching)] && g3.current == map[];
    assert g4.all == g3.all + [Renewal(host, new', Issuing, false, Requesting)];
    assert [e1, e2, e3, e4][1..] == [e2, e3, e4] && [e2, e3, e4][1..] == [e3, e4] && [e3, e4][1..] == [e4] && [e4][1..] == [];
    assert Run(g3, [e4]) == Run(g4, []) == g4;
    assert Run(g2, [e3, e4]) == Run(g3, [e4]);
    assert Run(g1, [e2, e3, e4]) == Run(g2, [e3, e4]);
    assert Run(EMPTY, [e1, e2, e3, e4]) == Run(g1, [e2, e3, e4]);
  }

  /** Both do happen.  The old watcher's timer fires after the new renewal began... */
  lemma WrongCancelHappens(host: string, old': string, new': string)
    ensures var g := Run(EMPTY, [ForceRequest(host, true, Some(old')), Started(0), RuntimeRestart, ForceRequest(host, true, Some(new'))]);
            && |g.all| == 2 && g.all[0].stage.Watching? && Reached(g, 0) == Some(1)
            && Step(g, AdminCancel(0)).all[0].stage.Failing?
  {
    Superseded(host, old', new');
  }

  /** ...and a cancel request that captured the old renewal before the restart reaches the new one. */
  lemma WrongRequestHappens(host: string, old': string, new': string)
    ensures var g := Run(EMPTY, [ForceRequest(host, true, Some(old')), Started(0)]);
            && Invariant(g) && |g.all| == 1 && Reached(g, 0) == Some(0)
            && var g' := Run(g, [RuntimeRestart, ForceRequest(host, true, Some(new'))]); |g'.all| == 2 && Reached(g', 0) == Some(1)
  {
    var e1, e2, e3, e4 := ForceRequest(host, true, Some(old')), Started(0), RuntimeRestart, ForceRequest(host, true, Some(new'));
    var g1 := Step(EMPTY, e1);
    var g2 := Step(g1, e2);
    StepKeeps(EMPTY, e1);
    StepKeeps(g1, e2);
    assert g1.all == [Renewal(host, old', Issuing, false, Requesting)];
    assert g2.all == [Renewal(host, old', Issuing, false, Watching)] && g2.current == map[host := 0];
    assert [e1, e2][1..] == [e2] && [e2][1..] == [];
    assert Run(EMPTY, [e1, e2]) == Run(g1, [e2]) == Run(g2, []) == g2;
    Superseded(host, old', new');
    assert [e1, e2, e3, e4][1..] == [e2, e3, e4] && [e2, e3, e4][1..] == [e3, e4];
    assert Run(EMPTY, [e1, e2, e3, e4]) == Run(g1, [e2, e3, e4]) == Run(g2, [e3, e4]);
  }
}
