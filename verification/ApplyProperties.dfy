/** What every run of mutations, applies, starts, stops, restores and deletes keeps. */
module ApplyProperties {
  import opened Ordering
  import opened Domain
  import opened Snapshot
  import opened Identity
  import opened CaddyConfig
  import opened CaddyRuntime
  import opened RuntimeProperties
  import opened CompilerSpec
  import opened Tables
  import opened Database
  import opened Revisions
  import opened RevisionProperties
  import opened ApplySpec
  import opened RuntimeAgreement

  // ----- one apply, seen from the database -------------------------------------------------------------

  /** The tables compile to the configuration of this revision. */
  ghost predicate HoldsFor(db: Db, id: ID) {
    id in db.revisions && Compilable(Load(db.tables)) && Compiled(Load(db.tables)).json == db.revisions[id].json
  }

  ghost predicate GoodLanding(t: Option<Tables>, born: Births) { t.Some? ==> GoodRows(t.value, born) }

  /** Every stored revision stays, with its content. */
  predicate Keeps(db: Db, db': Db) {
    forall id :: id in db.revisions ==> id in db'.revisions && Content(db'.revisions[id]) == Content(db.revisions[id])
  }

  /** Either the revision was stored before, or it is the only new one and takes the next number. */
  predicate Grown(db: Db, db': Db, id: ID) {
    if id in db.revisions then db'.next == db.next && db'.revisions.Keys == db.revisions.Keys
    else id in db'.revisions && db'.revisions[id].number == db.next && db'.next == db.next + 1
         && db'.revisions.Keys == db.revisions.Keys + {id}
  }

  lemma KeepsTransitive(a: Db, a': Db, b: Db, b': Db, c: Db)
    requires a'.revisions == a.revisions && Keeps(a', b) && b'.revisions == b.revisions && Keeps(b', c)
    ensures Keeps(a, c)
  {
  }

  lemma LandedKeeps(db: Db, t: Option<Tables>, born: Births)
    requires Invariant(db, born) && GoodLanding(t, born)
    ensures Invariant(Landed(db, t), born) && Follows(db, Landed(db, t))
    ensures UpToDate(db) ==> UpToDate(Landed(db, t))
  {
    hide Sane;
    hide GoodRows;
    if t.Some? { MutatedKeeps(db, t.value, born); }
  }

  /** What recording x does. */
  ghost predicate RecordedWell(db: Db, x: State, db': Db, id: ID, created: bool) {
    && db'.tables == db.tables && db'.active == db.active && ActiveRevision(db') == ActiveRevision(db)
    && db'.desired == Some(id) && !db'.dirty && Usable(db', id) && (created ==> db'.active != Some(id))
    && Compilable(x) && db'.revisions[id].json == Compiled(x).json && db'.revisions[id].configHash == Compiled(x).sha256
    && db'.revisions[id].stateHash == Sha256(IdentityOf(x))
    && Keeps(db, db') && Grown(db, db', id) && (created <==> id !in db.revisions)
  }

  lemma FoundWell(db: Db, x: State, id: ID, born: Births)
    requires Invariant(db, born) && Valid(x) && Compilable(x)
    requires id in db.revisions && Matching(db.revisions[id], Compiled(x).sha256, Sha256(IdentityOf(x)))
    ensures var db' := db.(desired := Some(id), dirty := false);
            Invariant(db', born) && Follows(db, db') && RecordedWell(db, x, db', id, false)
  {
    hide Valid;
    hide Compilable;
    hide Compiled;
    hide Sane;
    hide GoodRows;
    hide IdentityOf;
    CompiledHash(x);
    DesiredKeeps(db, id, born);
    SaneJson(db.revisions[id], born);
  }

  lemma CreatedWell(db: Db, x: State, id: ID, stamp: Timestamp, born: Births)
    requires Invariant(db, born) && Valid(x) && Compilable(x) && BornState(x, born) && id !in db.revisions
    requires forall other :: other in db.revisions ==> !Matching(db.revisions[other], Compiled(x).sha256, Sha256(IdentityOf(x)))
    ensures var db' := Created(db, id, NewRevision(x, stamp));
            Invariant(db', born) && Follows(db, db') && RecordedWell(db, x, db', id, true)
  {
    hide Valid;
    hide Compilable;
    hide Compiled;
    hide Sane;
    hide GoodRows;
    hide BornState;
    hide IdentityOf;
    hide Canonical;
    hide AllSane;
    hide Numbered;
    hide OnePerIdentity;
    hide Follows;
    NewRevisionSane(x, stamp, born);
    CreatedKeeps(db, id, NewRevision(x, stamp), born);
  }

  lemma RecordKeeps(db: Db, x: State, o: ApplyOracle, born: Births)
    requires Invariant(db, born) && Valid(x) && Compilable(x) && BornState(x, born) && Record(db, x, o).Recorded?
    ensures var r := Record(db, x, o);
            Invariant(r.db, born) && Follows(db, r.db) && RecordedWell(db, x, r.db, r.id, r.created)
  {
    hide Valid;
    hide Compilable;
    hide Compiled;
    hide Invariant;
    hide Follows;
    hide RecordedWell;
    hide BornState;
    hide IdentityOf;
    hide NewRevision;
    hide Matching;
    var found := Find(db, Compiled(x).sha256, Sha256(IdentityOf(x)));
    if found.Some? {
      FoundWell(db, x, found.value, born);
    } else {
      NoneFound(db, Compiled(x).sha256, Sha256(IdentityOf(x)), born);
      CreatedWell(db, x, o.id.value, o.created, born);
    }
  }

  lemma NoneFound(db: Db, config: ConfigHash, state: StateHash, born: Births)
    requires Invariant(db, born) && Find(db, config, state).None?
    ensures forall id :: id in db.revisions ==> !Matching(db.revisions[id], config, state)
  {
    hide Matching;
    hide Sane;
    hide GoodRows;
    hide Find;
    forall id | id in db.revisions ensures !Matching(db.revisions[id], config, state) {
      if Matching(db.revisions[id], config, state) { NewestExists(db, id, config, state); }
    }
  }

  lemma SaneJson(r: Revision, born: Births)
    requires Sane(r, born)
    ensures r.configHash == Sha256(r.json) && r.validation.ValidConfig? && Parsed(r.body).Success?
  {
  }

  /** Either the revision is marked, or at most a failure is noted. */
  ghost predicate Marked(w: World, id: ID, created: bool, o: ApplyOracle, after: World, r: Result<Returned>)
    requires id in w.db.revisions
  {
    if r.Success?
    then Usable(w.db, id) && after.db == MadeActive(w.db, id) && r.value == Returned(id, w.db.revisions[id].(status := Applied))
    else exists code :: after.db == Noted(w.db, id, created, code, o)
  }

  lemma ActivateMarks(w: World, id: ID, created: bool, config: Config, env: Environment, changed: bool,
                      previous: Option<Config>, o: ApplyOracle)
    requires id in w.db.revisions
    ensures var (after, r) := ActivateAndMark(w, id, created, config, env, changed, previous, o);
            Marked(w, id, created, o, after, r)
  {
  }

  lemma FinishedMarks(w: World, id: ID, created: bool, config: Config, hash: ConfigHash, env: Environment,
                      previous: Option<Revision>, o: ApplyOracle)
    requires id in w.db.revisions
    ensures var (after, r) := Finished(w, id, created, config, hash, env, previous, o); Marked(w, id, created, o, after, r)
  {
    hide ActivateAndMark;
    hide Observed;
    hide EnvironmentChanged;
    hide Noted;
    var (asked, changed) := EnvironmentChanged(w.rt, env);
    var (observed, state) := Observed(asked, o.health);
    ActivateMarks(w.(rt := asked), id, created, config, env, changed, OptionalConfig(previous), o);
    ActivateMarks(w.(rt := observed), id, created, config, env, changed, OptionalConfig(previous), o);
    if previous.Some? && previous.value.configHash == hash && state.RuntimeRunning? && !changed {
      var (after, r) := MarkOnly(w.(rt := observed), id, created, o);
      if r.Failure? { assert after.db == Noted(w.db, id, created, DatabaseFailed, o); }
    }
  }

  lemma NotedKeeps(db: Db, id: ID, created: bool, code: ErrorCode, o: ApplyOracle, born: Births)
    requires Invariant(db, born) && Usable(db, id) && (created ==> db.active != Some(id))
    ensures var after := Noted(db, id, created, code, o);
            && Invariant(after, born) && Follows(db, after)
            && after.tables == db.tables && after.dirty == db.dirty && after.desired == db.desired && after.active == db.active
            && after.revisions.Keys == db.revisions.Keys && after.next == db.next
            && forall k :: k in db.revisions ==> Content(after.revisions[k]) == Content(db.revisions[k])
  {
    hide Sane;
    hide GoodRows;
    if created && o.marksFailed { MadeFailedKeeps(db, id, code, born); }
  }

  /** What apply as a whole does to the database. */
  ghost predicate AppliedWell(w: World, o: ApplyOracle, after: World, r: Result<Returned>) {
    && Follows(w.db, after.db) && Keeps(w.db, after.db)
    && (o.before.None? && o.after.None? ==> UpToDate(w.db) ==> UpToDate(after.db))
    && (r.Success? ==>
          var x := Load(w.db.tables);
          && Valid(x) && Compilable(x)
          && Grown(w.db, after.db, r.value.id)
          && after.db.tables == Landed(Landed(w.db, o.before), o.after).tables
          && !after.db.dirty && after.db.desired == after.db.active == Some(r.value.id) && r.value.id in after.db.revisions
          && after.db.revisions[r.value.id].json == r.value.revision.json == Compiled(x).json
          && after.db.revisions[r.value.id].configHash == Compiled(x).sha256
          && after.db.revisions[r.value.id].stateHash == Sha256(IdentityOf(x)))
  }

  lemma MarkedWell(w: World, id: ID, created: bool, o: ApplyOracle, after: World, r: Result<Returned>, born: Births)
    requires Invariant(w.db, born) && Usable(w.db, id) && (created ==> w.db.active != Some(id)) && Marked(w, id, created, o, after, r)
    ensures Invariant(after.db, born) && Follows(w.db, after.db) && Keeps(w.db, after.db) && after.db.tables == w.db.tables
    ensures after.db.next == w.db.next && after.db.revisions.Keys == w.db.revisions.Keys
    ensures r.Success? ==>
              && !after.db.dirty && after.db.desired == after.db.active == Some(id)
              && Content(after.db.revisions[id]) == Content(w.db.revisions[id]) && r.value.id == id
              && Content(r.value.revision) == Content(w.db.revisions[id])
    ensures r.Failure? ==> (UpToDate(w.db) ==> UpToDate(after.db))
    ensures r.Success? ==> (UpToDate(after.db) <==> HoldsFor(w.db, id))
  {
    hide Sane;
    hide GoodRows;
    hide Noted;
    hide Compilable;
    hide Compiled;
    hide Load;
    if r.Success? {
      MadeActiveKeeps(w.db, id, born);
    } else {
      var code :| after.db == Noted(w.db, id, created, code, o);
      NotedKeeps(w.db, id, created, code, o, born);
      SameContentSameJson(w.db, after.db);
    }
  }

  lemma SameContentSameJson(db: Db, db': Db)
    requires db'.tables == db.tables && db'.dirty == db.dirty && db'.desired == db.desired
    requires db'.revisions.Keys == db.revisions.Keys
    requires forall k :: k in db.revisions ==> Content(db'.revisions[k]) == Content(db.revisions[k])
    ensures UpToDate(db) ==> UpToDate(db')
  {
    hide Compilable;
    hide Compiled;
    hide Load;
  }

  lemma RecordedHolds(db: Db, x: State, db': Db, id: ID, created: bool)
    requires RecordedWell(db, x, db', id, created) && x == Load(db.tables)
    ensures UpToDate(db') && HoldsFor(db', id)
  {
    hide Compilable;
    hide Compiled;
    hide Load;
  }

  /** The revision of the current state gets recorded. */
  ghost predicate Records(w: World, o: ApplyOracle) {
    Ready(w.db, o) && Record(Landed(w.db, o.before), Load(w.db.tables), o).Recorded?
  }

  /** The part of apply that follows a successful recording. */
  lemma RecordedKeeps(w: World, o: ApplyOracle, born: Births)
    requires Invariant(w.db, born) && GoodLanding(o.before, born) && GoodLanding(o.after, born)
    requires Records(w, o)
    ensures var (after, r) := Apply(w, o); Invariant(after.db, born) && AppliedWell(w, o, after, r)
  {
    hide Valid;
    hide Sane;
    hide GoodRows;
    hide Compilable;
    hide Compiled;
    hide Load;
    hide Record;
    hide IdentityOf;
    hide Finished;
    hide Marked;
    hide Invariant;
    hide UpToDate;
    hide HoldsFor;
    hide Follows;
    hide Keeps;
    hide Content;
    var now, x := Landed(w.db, o.before), Load(w.db.tables);
    LandedKeeps(w.db, o.before, born);
    LoadedBorn(w.db, born);
    var recorded := Record(now, x, o);
    RecordKeeps(now, x, o, born);
    if o.before.None? { RecordedHolds(now, x, recorded.db, recorded.id, recorded.created); }
    LandedKeeps(recorded.db, o.after, born);
    var middle := World(Landed(recorded.db, o.after), w.rt);
    var (after, r) := Finished(middle, recorded.id, recorded.created, Compiled(x).json, Compiled(x).sha256,
                               o.environment.value, ActiveRevision(w.db), o);
    FinishedMarks(middle, recorded.id, recorded.created, Compiled(x).json, Compiled(x).sha256,
                  o.environment.value, ActiveRevision(w.db), o);
    MarkedWell(middle, recorded.id, recorded.created, o, after, r, born);
    if r.Success? {
      SameContent(after.db.revisions[recorded.id], middle.db.revisions[recorded.id]);
      SameContent(r.value.revision, middle.db.revisions[recorded.id]);
    }
    KeepsTransitive(w.db, now, recorded.db, middle.db, after.db);
    FollowsTransitive(w.db, now, recorded.db);
    FollowsTransitive(w.db, recorded.db, middle.db);
    FollowsTransitive(w.db, middle.db, after.db);
  }

  lemma ApplyKeeps(w: World, o: ApplyOracle, born: Births)
    requires Invariant(w.db, born) && GoodLanding(o.before, born) && GoodLanding(o.after, born)
    ensures var (after, r) := Apply(w, o); Invariant(after.db, born) && AppliedWell(w, o, after, r)
  {
    hide Valid;
    hide Sane;
    hide GoodRows;
    hide Compilable;
    hide Compiled;
    hide Load;
    hide Record;
    hide Finished;
    hide Invariant;
    hide UpToDate;
    hide Follows;
    LandedKeeps(w.db, o.before, born);
    if Records(w, o) { RecordedKeeps(w, o, born); }
  }

  /** An apply that fails after recording: the recorded revision is desired, the active one stays, and the tables are dirty
      exactly if a mutation landed after recording. */
  lemma FailedAfterRecording(w: World, o: ApplyOracle, born: Births)
    requires Invariant(w.db, born) && GoodLanding(o.before, born) && GoodLanding(o.after, born)
    requires Records(w, o) && Apply(w, o).1.Failure?
    ensures var after, r, x := Apply(w, o).0.db, Record(Landed(w.db, o.before), Load(w.db.tables), o), Load(w.db.tables);
            && Invariant(after, born) && after.desired == Some(r.id) && after.active == w.db.active
            && (after.dirty <==> o.after.Some?) && after.tables == Landed(Landed(w.db, o.before), o.after).tables
            && r.id in after.revisions && Compilable(x) && after.revisions[r.id].json == Compiled(x).json
            && (r.created ==> after.active != Some(r.id) && exists code :: after == Noted(Landed(r.db, o.after), r.id, true, code, o))
  {
    hide Valid;
    hide Sane;
    hide GoodRows;
    hide Compilable;
    hide Compiled;
    hide Load;
    hide Record;
    hide IdentityOf;
    hide Finished;
    hide Follows;
    hide UpToDate;
    hide Keeps;
    hide Grown;
    var now, x := Landed(w.db, o.before), Load(w.db.tables);
    LandedKeeps(w.db, o.before, born);
    LoadedBorn(w.db, born);
    var r := Record(now, x, o);
    RecordKeeps(now, x, o, born);
    LandedKeeps(r.db, o.after, born);
    var middle := World(Landed(r.db, o.after), w.rt);
    FinishedMarks(middle, r.id, r.created, Compiled(x).json, Compiled(x).sha256, o.environment.value, ActiveRevision(w.db), o);
    var code :| Apply(w, o).0.db == Noted(middle.db, r.id, r.created, code, o);
    NotedKeeps(middle.db, r.id, r.created, code, o, born);
    SameContent(Apply(w, o).0.db.revisions[r.id], middle.db.revisions[r.id]);
  }

  /** A desired revision that is not the active one is pending. */
  lemma OtherNumbers(db: Db, id: ID, born: Births)
    requires Invariant(db, born) && db.desired == Some(id) && db.active != Some(id)
    ensures Pending(db)
  {
    hide Sane;
    hide GoodRows;
  }

  // ----- exactly when an apply succeeds --------------------------------------------------------------------

  lemma RecordedIsUsable(db: Db, x: State, o: ApplyOracle)
    requires Valid(x) && Compilable(x) && Record(db, x, o).Recorded?
    ensures Usable(Record(db, x, o).db, Record(db, x, o).id)
  {
    hide Valid;
    hide Compilable;
    hide Compiled;
    hide IdentityOf;
    hide Canonical;
  }

  lemma MarkExactly(w: World, id: ID, created: bool, config: Config, env: Environment, changed: bool, previous: Option<Config>,
                    o: ApplyOracle)
    requires Usable(w.db, id)
    ensures ActivateAndMark(w, id, created, config, env, changed, previous, o).1.Success? <==>
            o.marks && o.healthAfter && Activable(w.rt, changed, o.activation)
  {
    hide Checked;
    hide Activable;
    hide MadeActive;
    hide Noted;
    CheckedExactly(w.rt, config, env, changed, previous, w.rt.environment, o.activation, o.healthAfter);
  }

  /** The configuration is already running, and the process answers and needs no other environment. */
  predicate AlreadyRuns(asked: Runtime, changed: bool, hash: ConfigHash, previous: Option<Revision>, o: ApplyOracle) {
    previous.Some? && previous.value.configHash == hash && Running(asked) && o.health && !changed
  }

  lemma FinishedExactly(w: World, id: ID, created: bool, config: Config, hash: ConfigHash, env: Environment,
                        previous: Option<Revision>, o: ApplyOracle)
    requires Usable(w.db, id)
    ensures var (asked, changed) := EnvironmentChanged(w.rt, env);
            Finished(w, id, created, config, hash, env, previous, o).1.Success? <==>
            o.marks && (AlreadyRuns(asked, changed, hash, previous, o) || (o.healthAfter && Activable(asked, changed, o.activation)))
  {
    hide ActivateAndMark;
    hide EnvironmentChanged;
    hide MadeActive;
    hide Noted;
    var (asked, changed) := EnvironmentChanged(w.rt, env);
    var observed := Observed(asked, o.health).0;
    MarkExactly(w.(rt := asked), id, created, config, env, changed, OptionalConfig(previous), o);
    MarkExactly(w.(rt := observed), id, created, config, env, changed, OptionalConfig(previous), o);
    assert Activable(observed, changed, o.activation) <==> Activable(asked, changed, o.activation);
  }

  /** The revision gets recorded and marked, and its configuration runs already or its activation works and is healthy. */
  ghost predicate ApplyWorks(w: World, o: ApplyOracle) {
    && Records(w, o) && o.marks
    && (var (asked, changed) := EnvironmentChanged(w.rt, o.environment.value);
        || AlreadyRuns(asked, changed, Compiled(Load(w.db.tables)).sha256, ActiveRevision(w.db), o)
        || (o.healthAfter && Activable(asked, changed, o.activation)))
  }

  lemma ApplySucceedsExactly(w: World, o: ApplyOracle)
    ensures Apply(w, o).1.Success? <==> ApplyWorks(w, o)
  {
    hide Valid;
    hide Compilable;
    hide Compiled;
    hide Load;
    hide Record;
    hide Finished;
    hide EnvironmentChanged;
    hide AlreadyRuns;
    hide Activable;
    if Records(w, o) {
      var x, r := Load(w.db.tables), Record(Landed(w.db, o.before), Load(w.db.tables), o);
      RecordedIsUsable(Landed(w.db, o.before), x, o);
      FinishedExactly(World(Landed(r.db, o.after), w.rt), r.id, r.created, Compiled(x).json, Compiled(x).sha256,
                      o.environment.value, ActiveRevision(w.db), o);
    }
  }

  lemma SameContent(r: Revision, s: Revision)
    requires Content(r) == Content(s)
    ensures r.number == s.number && r.json == s.json && r.configHash == s.configHash && r.stateHash == s.stateHash
  {
  }

  lemma LoadedBorn(db: Db, born: Births)
    requires Invariant(db, born)
    ensures BornState(Load(db.tables), born)
  {
    hide Sane;
    LoadBorn(db.tables, born);
  }
}
