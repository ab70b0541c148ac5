/** Runs of the whole service: mutations, applies, starts, stops, restores, deletes, status requests and crashes. */
module ApplyRuns {
  import opened Ordering
  import opened Domain
  import opened Snapshot
  import opened Identity
  import opened CaddyConfig
  import opened CaddyRuntime
  import opened CompilerSpec
  import opened Tables
  import opened Database
  import opened Revisions
  import opened RevisionProperties
  import opened ApplySpec
  import opened ApplyProperties
  import RuntimeProperties
  import RestoreProperties
  import ConfigIdentity

  datatype Action =
    | Mutation(tables: Tables)
    | ApplyAction(apply: ApplyOracle)
    | StartAction(start: StartOracle, restart: bool)
    | StopAction(stop: StopOutcome)
    | RestoreAction(restored: ID, restore: RestoreOracle)
    | DeleteAction(deleted: ID, works: bool)
    | StatusAction(healthy: bool)
    | CertificateAction(request: CertificateRequest)
    | RenewalAction
    | Crash(process: nat)

  ghost function Step(w: World, a: Action): World {
    match a
    case Mutation(t) => w.(db := Mutated(w.db, t))
    case ApplyAction(o) => Apply(w, o).0
    case StartAction(o, restart) => Start(w, o, restart).0
    case StopAction(o) => Stop(w, o).0
    case RestoreAction(id, o) => Restore(w, id, o).0
    case DeleteAction(id, works) => Delete(w, id, works).0
    case StatusAction(healthy) => w.(rt := Observed(w.rt, healthy).0)
    case CertificateAction(request) => w.(rt := Certified(w.rt, request).0)
    case RenewalAction => w.(rt := Drained(w.rt))
    case Crash(i) => w.(rt := RuntimeProperties.Exited(w.rt, i))
  }

  ghost function Run(w: World, actions: seq<Action>): World
    decreases |actions|
  {
    if |actions| == 0 then w else Run(Step(w, actions[0]), actions[1..])
  }

  // ----- the database along a run ---------------------------------------------------------------------

  /** Mutations, also those that land during another call, leave good rows. */
  ghost predicate Admissible(a: Action, born: Births) {
    match a
    case Mutation(t) => GoodRows(t, born)
    case ApplyAction(o) => GoodLanding(o.before, born) && GoodLanding(o.after, born)
    case StartAction(o, _) => GoodLanding(o.apply.before, born) && GoodLanding(o.apply.after, born)
    case RestoreAction(_, o) => GoodLanding(o.landed, born)
    case _ => true
  }

  /** No mutation lands during an apply. */
  predicate Quiet(a: Action) {
    match a
    case ApplyAction(o) => o.before.None? && o.after.None?
    case StartAction(o, _) => o.apply.before.None? && o.apply.after.None?
    case _ => true
  }

  lemma StartDb(w: World, o: StartOracle, stop: bool, born: Births)
    requires Invariant(w.db, born)
    ensures var after := Start(w, o, stop).0;
            after.db == w.db || after == Apply(w, o.apply).0
  {
    hide Invariant;
    hide Parsed;
    hide Apply;
    hide Launched;
    hide StoppedBy;
  }

  lemma RestoreKeeps(w: World, id: ID, o: RestoreOracle, born: Births)
    requires Invariant(w.db, born) && GoodLanding(o.landed, born)
    ensures var after := Restore(w, id, o).0;
            Invariant(after.db, born) && Follows(w.db, after.db) && Keeps(w.db, after.db) && (UpToDate(w.db) ==> UpToDate(after.db))
  {
    hide Valid;
    hide Sane;
    hide GoodRows;
    hide GoodLanding;
    hide Compilable;
    hide Compiled;
    hide Load;
    hide Checked;
    hide PutBack;
    hide EnvironmentChanged;
    hide Invariant;
    hide UpToDate;
    hide Follows;
    hide RestoredTables;
    hide Restorable;
    FollowsItself(w.db);
    LandedKeeps(w.db, o.landed, born);
    var now := Landed(w.db, o.landed);
    if id in w.db.revisions && Verified(w.db.revisions[id]) {
      var x := Parsed(w.db.revisions[id].body).value;
      RevisionBorn(w.db, id, born);
      if Restorable(now, id, x) {
        RestoredKeeps(now, id, x, born);
        FollowsTransitive(w.db, now, Revisions.Restored(now, id, x));
      }
    }
  }

  lemma RevisionBorn(db: Db, id: ID, born: Births)
    requires Invariant(db, born) && id in db.revisions
    ensures Consistent(db.revisions[id]) && Parsed(db.revisions[id].body).Success?
    ensures BornState(Parsed(db.revisions[id].body).value, born)
  {
    hide GoodRows;
    hide Compilable;
    hide Compiled;
  }

  lemma StepKeeps(w: World, a: Action, born: Births)
    requires Invariant(w.db, born) && Admissible(a, born)
    ensures Invariant(Step(w, a).db, born) && Follows(w.db, Step(w, a).db)
    ensures Quiet(a) && UpToDate(w.db) ==> UpToDate(Step(w, a).db)
    ensures !(a.DeleteAction? && a.works) ==> Keeps(w.db, Step(w, a).db)
  {
    hide Invariant;
    hide UpToDate;
    hide Follows;
    hide Apply;
    hide Start;
    hide Restore;
    hide GoodRows;
    FollowsItself(w.db);
    match a
    case Mutation(t) => MutatedKeeps(w.db, t, born);
    case ApplyAction(o) => ApplyKeeps(w, o, born);
    case StartAction(o, restart) =>
      StartDb(w, o, restart, born);
      ApplyKeeps(w, o.apply, born);
    case RestoreAction(id, o) => RestoreKeeps(w, id, o, born);
    case DeleteAction(id, works) => if works && Deletable(w.db, id) { DeletedKeeps(w.db, id, born); }
    case _ =>
  }

  lemma FollowsItself(db: Db)
    ensures Follows(db, db)
  {
  }

  /** The revision table over every run: desired and active name stored revisions, the active one is valid and
      applied, no two revisions share a number or an identity, each can be verified again, numbers are never
      reused and a revision's content never changes. */
  lemma {:induction false} RevisionTable(w: World, actions: seq<Action>, born: Births)
    requires Invariant(w.db, born) && forall i :: 0 <= i < |actions| ==> Admissible(actions[i], born)
    ensures Invariant(Run(w, actions).db, born) && Follows(w.db, Run(w, actions).db)
    decreases |actions|
  {
    hide Invariant;
    hide Follows;
    hide Admissible;
    hide Step;
    FollowsItself(w.db);
    if |actions| > 0 {
      StepKeeps(w, actions[0], born);
      RevisionTable(Step(w, actions[0]), actions[1..], born);
      FollowsTransitive(w.db, Step(w, actions[0]).db, Run(w, actions).db);
    }
  }

  lemma {:induction false} StaysUpToDate(w: World, actions: seq<Action>, born: Births)
    requires Invariant(w.db, born) && UpToDate(w.db)
    requires forall i :: 0 <= i < |actions| ==> Admissible(actions[i], born) && Quiet(actions[i])
    ensures Invariant(Run(w, actions).db, born) && UpToDate(Run(w, actions).db)
    decreases |actions|
  {
    hide Invariant;
    hide UpToDate;
    hide Admissible;
    hide Step;
    if |actions| > 0 {
      StepKeeps(w, actions[0], born);
      StaysUpToDate(Step(w, actions[0]), actions[1..], born);
    }
  }

  lemma NotPendingSameRevision(db: Db)
    requires Pointers(db) && Numbered(db) && !Pending(db) && db.active.Some?
    ensures db.desired == db.active && !db.dirty
  {
  }

  /** Not pending means applied: whenever an active revision exists and State reports nothing pending, the current
      tables compile to the active revision's configuration, also with extra providers left by a restore. */
  lemma NotPendingMeansApplied(w: World, actions: seq<Action>, born: Births)
    requires Invariant(w.db, born) && UpToDate(w.db)
    requires forall i :: 0 <= i < |actions| ==> Admissible(actions[i], born) && Quiet(actions[i])
    ensures var db := Run(w, actions).db;
            !Pending(db) && db.active.Some? ==> HoldsFor(db, db.active.value)
  {
    hide Sane;
    hide GoodRows;
    hide Compilable;
    hide Compiled;
    hide Load;
    hide Admissible;
    hide Run;
    StaysUpToDate(w, actions, born);
    var db := Run(w, actions).db;
    if !Pending(db) && db.active.Some? { NotPendingSameRevision(db); }
  }

  /** Both compile, to the same configuration. */
  ghost predicate SameConfig(t: Tables, t': Tables) {
    Compilable(Load(t)) && Compilable(Load(t')) && Compiled(Load(t)).json == Compiled(Load(t')).json
  }

  /** After a successful apply nothing is pending, so the tables hold the active configuration exactly when the
      mutations that landed meanwhile did not change it. */
  lemma SucceededHolds(w: World, o: ApplyOracle, born: Births)
    requires Invariant(w.db, born) && GoodLanding(o.before, born) && GoodLanding(o.after, born) && Apply(w, o).1.Success?
    ensures var after := Apply(w, o).0.db;
            && after.tables == Landed(Landed(w.db, o.before), o.after).tables && !Pending(after) && after.active.Some?
            && (HoldsFor(after, after.active.value) <==> SameConfig(w.db.tables, after.tables))
  {
    hide Sane;
    hide Compilable;
    hide Compiled;
    hide Load;
    hide Apply;
    hide Sound;
    hide ValidRows;
    ApplyKeeps(w, o, born);
    RestoreProperties.RowsCompile(Apply(w, o).0.db.tables);
  }

  lemma UnrecordedHolds(w: World, o: ApplyOracle, born: Births)
    requires Invariant(w.db, born) && UpToDate(w.db) && GoodLanding(o.before, born) && !Records(w, o)
    ensures var (after, r) := Apply(w, o);
            r.Failure? && (!Pending(after.db) && after.db.active.Some? ==> HoldsFor(after.db, after.db.active.value))
  {
    hide Valid;
    hide Sane;
    hide GoodRows;
    hide Compilable;
    hide Compiled;
    hide Load;
    hide Record;
    hide Finished;
    LandedKeeps(w.db, o.before, born);
    var after := Apply(w, o).0.db;
    if !Pending(after) && after.active.Some? { NotPendingSameRevision(after); }
  }

  lemma FailedHolds(w: World, o: ApplyOracle, born: Births)
    requires Invariant(w.db, born) && GoodLanding(o.before, born) && GoodLanding(o.after, born)
    requires Records(w, o) && Apply(w, o).1.Failure?
    ensures var after, id := Apply(w, o).0.db, Record(Landed(w.db, o.before), Load(w.db.tables), o).id;
            && after.tables == Landed(Landed(w.db, o.before), o.after).tables && after.active == w.db.active
            && (!Pending(after) <==> w.db.active == Some(id) && o.after.None?)
            && (after.active == Some(id) ==> (HoldsFor(after, id) <==> SameConfig(w.db.tables, after.tables)))
  {
    hide Sane;
    hide Compilable;
    hide Compiled;
    hide Load;
    hide Apply;
    hide Record;
    hide Valid;
    hide Sound;
    hide ValidRows;
    FailedAfterRecording(w, o, born);
    var after, id := Apply(w, o).0.db, Record(Landed(w.db, o.before), Load(w.db.tables), o).id;
    RestoreProperties.RowsCompile(after.tables);
    if after.active != Some(id) { OtherNumbers(after, id, born); }
  }

  /** The stored revision has the identity of this state. */
  ghost predicate Identifies(r: Revision, x: State) {
    Compilable(x) && r.configHash == Compiled(x).sha256 && r.stateHash == Sha256(IdentityOf(x))
  }

  /** The active revision is that of the current state. */
  ghost predicate ActiveIsCurrent(db: Db) {
    ActiveRevision(db).Some? && Identifies(ActiveRevision(db).value, Load(db.tables))
  }

  /** What gets recorded is the active revision exactly when that has the identity of the state. */
  lemma RecordsActive(w: World, o: ApplyOracle, born: Births)
    requires Invariant(w.db, born) && GoodLanding(o.before, born) && Records(w, o)
    ensures w.db.active == Some(Record(Landed(w.db, o.before), Load(w.db.tables), o).id) <==> ActiveIsCurrent(w.db)
  {
    hide Valid;
    hide Sane;
    hide GoodRows;
    hide Compilable;
    hide Compiled;
    hide Load;
    hide Record;
    hide IdentityOf;
    LandedKeeps(w.db, o.before, born);
    LoadedBorn(w.db, born);
    var now, x := Landed(w.db, o.before), Load(w.db.tables);
    var r := Record(now, x, o);
    RecordKeeps(now, x, o, born);
    if w.db.active.Some? {
      var id := w.db.active.value;
      SameContent(r.db.revisions[id], w.db.revisions[id]);
      assert ActiveIsCurrent(w.db) ==> SameIdentity(r.db.revisions[id], r.db.revisions[r.id]);
    }
  }

  /** Exactly when an apply breaks "not pending means applied": a mutation that landed meanwhile changed the configuration,
      and its dirty flag was cleared, either because the apply works, or by recording the active revision again, with
      nothing landing after that. */
  lemma LostMutation(w: World, o: ApplyOracle, born: Births)
    requires Invariant(w.db, born) && UpToDate(w.db) && GoodLanding(o.before, born) && GoodLanding(o.after, born)
    ensures var after := Apply(w, o).0.db;
            !Pending(after) && after.active.Some? && !HoldsFor(after, after.active.value) <==>
              && (ApplyWorks(w, o) || (Records(w, o) && o.after.None? && ActiveIsCurrent(w.db)))
              && !SameConfig(w.db.tables, Landed(Landed(w.db, o.before), o.after).tables)
  {
    hide Invariant;
    hide UpToDate;
    hide Apply;
    hide Record;
    hide Ready;
    hide SameConfig;
    hide HoldsFor;
    hide Pending;
    hide ApplyWorks;
    hide ActiveIsCurrent;
    ApplySucceedsExactly(w, o);
    if !Records(w, o) {
      UnrecordedHolds(w, o, born);
    } else if Apply(w, o).1.Success? {
      SucceededHolds(w, o, born);
    } else {
      FailedHolds(w, o, born);
      RecordsActive(w, o, born);
    }
  }

  // ----- applying the same state again -------------------------------------------------------------------

  /** A successful apply of a state whose identity is stored returns that revision and creates none; otherwise
      it creates one with the next number. */
  lemma ApplyReuses(w: World, o: ApplyOracle, id: ID, born: Births)
    requires Invariant(w.db, born) && GoodLanding(o.before, born) && GoodLanding(o.after, born) && Apply(w, o).1.Success?
    requires id in w.db.revisions && Identifies(w.db.revisions[id], Load(w.db.tables))
    ensures var (after, r) := Apply(w, o);
            r.value.id == id && after.db.next == w.db.next && after.db.revisions.Keys == w.db.revisions.Keys
  {
    hide Sane;
    hide GoodRows;
    hide Compilable;
    hide Compiled;
    hide Load;
    hide Apply;
    hide IdentityOf;
    ApplyKeeps(w, o, born);
    var (after, r) := Apply(w, o);
    SameContent(after.db.revisions[id], w.db.revisions[id]);
    assert SameIdentity(after.db.revisions[id], after.db.revisions[r.value.id]);
  }

  /** A revision that is not deleted stays, with its content. */
  lemma {:induction false} RevisionStays(w: World, actions: seq<Action>, id: ID, born: Births)
    requires Invariant(w.db, born) && id in w.db.revisions
    requires forall i :: 0 <= i < |actions| ==> Admissible(actions[i], born)
    requires forall i :: 0 <= i < |actions| ==> !(actions[i].DeleteAction? && actions[i].deleted == id)
    ensures id in Run(w, actions).db.revisions && Content(Run(w, actions).db.revisions[id]) == Content(w.db.revisions[id])
    decreases |actions|
  {
    hide Invariant;
    hide Follows;
    hide Admissible;
    hide UpToDate;
    hide Apply;
    hide Start;
    hide Restore;
    if |actions| > 0 {
      StepKeeps(w, actions[0], born);
      assert id in Step(w, actions[0]).db.revisions;
      RevisionStays(Step(w, actions[0]), actions[1..], id, born);
    }
  }

  /** A, anything, A again: applying a state, then anything that does not delete its revision, then a state with the
      same identity, returns the first revision. */
  lemma SameStateSameRevision(w: World, first: ApplyOracle, between: seq<Action>, second: ApplyOracle, born: Births)
    requires Invariant(w.db, born) && Apply(w, first).1.Success?
    requires Admissible(ApplyAction(first), born) && Admissible(ApplyAction(second), born)
    requires forall i :: 0 <= i < |between| ==> Admissible(between[i], born)
    requires forall i :: 0 <= i < |between| ==>
                           !(between[i].DeleteAction? && between[i].deleted == Apply(w, first).1.value.id)
    requires var w' := Run(Apply(w, first).0, between);
             && Apply(w', second).1.Success?
             && StateHashed(Load(w'.db.tables)) == StateHashed(Load(w.db.tables))
    ensures Apply(Run(Apply(w, first).0, between), second).1.value.id == Apply(w, first).1.value.id
  {
    hide Sane;
    hide GoodRows;
    hide Compilable;
    hide Compiled;
    hide Load;
    hide Apply;
    hide Run;
    hide Invariant;
    hide Valid;
    var (w1, r1) := Apply(w, first);
    var w2 := Run(w1, between);
    ApplyKeeps(w, first, born);
    RevisionTable(w1, between, born);
    RevisionStays(w1, between, r1.value.id, born);
    ApplyKeeps(w2, second, born);
    SameContent(w2.db.revisions[r1.value.id], w1.db.revisions[r1.value.id]);
    var x, y := Load(w.db.tables), Load(w2.db.tables);
    CanonicalValid(x);
    CanonicalValid(y);
    ConfigIdentity.SameIdentitySameConfig(x, y);
    ApplyReuses(w2, second, r1.value.id, born);
  }
}
