/** Where the service's promises end: exact conditions, and what restore leaves behind. */
module ApplyLimits {
  import opened Ordering
  import opened Domain
  import opened Snapshot
  import opened Identity
  import opened CaddyConfig
  import opened CaddyRuntime
  import opened RuntimeProperties
  import opened CompilerSpec
  import opened Tables
  import opened Database
  import opened Revisions
  import opened RestoreProperties
  import opened RevisionProperties
  import opened ApplySpec
  import opened ApplyProperties
  import opened RuntimeAgreement
  import opened AgreementLimits
  import ApplyAgreement
  import ApplyRuns
  import ConfigIdentity
  import ConfigImport
  import ConfigFile
  import ImportProperties

  // ----- the start of every run ------------------------------------------------------------------

  /** A freshly migrated database and a manager that has launched nothing. */
  lemma Initial(t: Tables, born: Births)
    requires GoodRows(t, born)
    ensures var w := World(Db(t, map[], None, None, true, 1), INITIAL);
            Invariant(w.db, born) && UpToDate(w.db) && OneChild(w.rt) && ApplyAgreement.Agree(w)
  {
    hide GoodRows;
  }

  /** Every call of a first apply works. */
  predicate AllWell(o: ApplyOracle) {
    && o.readable && o.environment.Success? && o.invalid.None? && o.id.Success? && ValidID(o.id.value) && o.created != 0
    && o.finds && o.activeReads && o.stamp != 0 && o.records
    && Starts(o.activation.start) && o.healthAfter && o.marks
  }

  lemma FirstStart(w: World, id: ID, config: Config, hash: ConfigHash, env: Environment, o: ApplyOracle)
    requires w.rt == INITIAL && Usable(w.db, id) && AllWell(o)
    ensures var (after, r) := Finished(w, id, true, config, hash, env, None, o);
            && r == Success(Returned(id, w.db.revisions[id].(status := Applied))) && after.db == MadeActive(w.db, id)
            && after.rt.command == Some(0) && after.rt.processes == [Process(config, env, true, false)]
            && after.rt.environment == env && after.rt.lastError.None?
  {
    hide MadeActive;
  }

  /** The first apply of a valid state creates revision 1, launches Caddy with its configuration and leaves nothing pending,
      whatever lands meanwhile. */
  lemma FirstApply(t: Tables, o: ApplyOracle, born: Births)
    requires GoodRows(t, born) && Valid(Load(t)) && AllWell(o)
    ensures Compilable(Load(t))
    ensures var (after, r) := Apply(World(Db(t, map[], None, None, true, 1), INITIAL), o);
            && r.Success? && r.value.id == o.id.value && r.value.revision.number == 1 && !Pending(after.db)
            && after.db.active == Some(r.value.id) && after.db.revisions.Keys == {r.value.id}
            && after.rt == Fields([Process(Compiled(Load(t)).json, o.environment.value, true, false)], Some(0),
                                  o.environment.value, None)
  {
    hide Valid;
    hide Load;
    hide Compilable;
    hide Compiled;
    hide Finished;
    hide IdentityOf;
    hide Canonical;
    hide Sane;
    hide ValidID;
    hide Starts;
    var x := Load(t);
    LoadBorn(t, born);
    ConfigIdentity.ValidIffCompilable(x);
    NewRevisionSane(x, o.created, born);
    CompiledHash(x);
    var now := Landed(Db(t, map[], None, None, true, 1), o.before);
    assert Creatable(now, o.id.value, NewRevision(x, o.created));
    var db := Landed(Created(now, o.id.value, NewRevision(x, o.created)), o.after);
    assert db.revisions.Keys == {o.id.value};
    FirstStart(World(db, INITIAL), o.id.value, Compiled(x).json, Compiled(x).sha256, o.environment.value, o);
  }

  /** Importing a document is one of the mutations a run may make. */
  lemma ImportIsAdmissible(t: Tables, seed: ConfigImport.ImportSeed, t': Tables, born: Births)
    requires GoodRows(t, born) && ConfigFile.ValidDocument(seed.document) && ImportProperties.GoodSeed(t, seed)
    requires ConfigImport.Importable(t, seed) && ConfigImport.Overlaid(t, seed, t')
    ensures ApplyRuns.Admissible(ApplyRuns.Mutation(t'), born)
  {
    hide Sound;
    hide ValidRows;
    hide ConfigImport.Importable;
    hide ConfigImport.Upserted;
    hide ConfigImport.PermissionsOverlaid;
    hide ConfigImport.TLSOverlaid;
    hide ConfigFile.ValidDocument;
    hide ImportProperties.GoodSeed;
    hide ImportProperties.GoodTables;
    ImportProperties.GoodTablesSound(t);
    ImportProperties.ImportStaysGood(t, seed, t');
    ImportProperties.GoodTablesSound(t');
  }

  /** An apply that fails after it created a revision leaves it desired, marked as failed and pending. */
  lemma FailedApplyPending(w: World, o: ApplyOracle, born: Births)
    requires Invariant(w.db, born) && GoodLanding(o.before, born) && GoodLanding(o.after, born)
    requires Records(w, o) && Record(Landed(w.db, o.before), Load(w.db.tables), o).created && Apply(w, o).1.Failure?
    ensures var after, id := Apply(w, o).0.db, Record(Landed(w.db, o.before), Load(w.db.tables), o).id;
            && after.desired == Some(id) && after.active == w.db.active && Pending(after)
            && (o.marksFailed ==> id in after.revisions && after.revisions[id].status.ApplyFailed? && after.revisions[id].error.Some?)
  {
    hide Invariant;
    hide Compilable;
    hide Compiled;
    hide Load;
    hide Record;
    hide Apply;
    hide Valid;
    FailedAfterRecording(w, o, born);
    var after, r := Apply(w, o).0.db, Record(Landed(w.db, o.before), Load(w.db.tables), o);
    OtherNumbers(after, r.id, born);
    if o.marksFailed { RecordedUsable(w, o, born); }
  }

  lemma RecordedUsable(w: World, o: ApplyOracle, born: Births)
    requires Invariant(w.db, born) && GoodLanding(o.before, born) && Records(w, o)
    ensures var r := Record(Landed(w.db, o.before), Load(w.db.tables), o); Usable(r.db, r.id)
  {
    hide Valid;
    hide Invariant;
    hide Compilable;
    hide Compiled;
    hide Load;
    hide Record;
    LandedKeeps(w.db, o.before, born);
    LoadedBorn(w.db, born);
    RecordKeeps(Landed(w.db, o.before), Load(w.db.tables), o, born);
  }

  // ----- applying twice -------------------------------------------------------------------------------

  lemma AppliedRow(w: World, o: ApplyOracle)
    requires Apply(w, o).1.Success?
    ensures var (after, r) := Apply(w, o);
            && r.value.id in after.db.revisions && after.db.active == after.db.desired == Some(r.value.id) && !after.db.dirty
            && after.db.revisions[r.value.id] == AppliedRevision(after.db.revisions[r.value.id])
  {
    hide Valid;
    hide Compilable;
    hide Compiled;
    hide Load;
    hide Record;
    hide Finished;
    hide IdentityOf;
    var x, r := Load(w.db.tables), Record(Landed(w.db, o.before), Load(w.db.tables), o);
    ApplyAgreement.RecordStored(Landed(w.db, o.before), x, o);
    FinishedMarks(World(Landed(r.db, o.after), w.rt), r.id, r.created, Compiled(x).json, Compiled(x).sha256,
                  o.environment.value, ActiveRevision(w.db), o);
  }

  /** Recording a state whose revision is desired already changes nothing. */
  lemma RecordedAgain(db: Db, x: State, o: ApplyOracle, id: ID, born: Births)
    requires Invariant(db, born) && Valid(x) && Compilable(x) && BornState(x, born) && Record(db, x, o).Recorded?
    requires id in db.revisions && ApplyRuns.Identifies(db.revisions[id], x) && db.desired == Some(id) && !db.dirty
    ensures Record(db, x, o) == Recorded(db, id, false)
  {
    hide Valid;
    hide Compilable;
    hide Compiled;
    hide IdentityOf;
    hide Matching;
    hide GoodRows;
    hide Sane;
    hide Newest;
    hide BornState;
    assert Sane(db.revisions[id], born);
    SaneMatching(db.revisions[id], born);
    NewestExists(db, id, Compiled(x).sha256, Sha256(IdentityOf(x)));
    RecordKeeps(db, x, o, born);
    var r := Record(db, x, o);
    assert r.id in db.revisions && SameIdentity(db.revisions[r.id], db.revisions[id]);
  }

  /** The revision of x is active, applied and clean. */
  ghost predicate ActiveFor(db: Db, id: ID, x: State) {
    && id in db.revisions && db.revisions[id] == AppliedRevision(db.revisions[id]) && Usable(db, id)
    && db.active == db.desired == Some(id) && !db.dirty && ApplyRuns.Identifies(db.revisions[id], x)
  }

  lemma AppliedState(w: World, o: ApplyOracle, born: Births)
    requires Invariant(w.db, born) && o.before.None? && o.after.None? && Apply(w, o).1.Success?
    ensures var (after, r) := Apply(w, o);
            Invariant(after.db, born) && after.db.tables == w.db.tables && ActiveFor(after.db, r.value.id, Load(w.db.tables))
  {
    hide Sane;
    hide GoodRows;
    hide Compilable;
    hide Compiled;
    hide Load;
    hide Apply;
    hide IdentityOf;
    hide Follows;
    hide Keeps;
    hide Grown;
    hide UpToDate;
    AppliedRow(w, o);
    ApplyKeeps(w, o, born);
  }

  lemma MarkedAgain(w: World, id: ID, config: Config, hash: ConfigHash, o: ApplyOracle)
    requires Running(w.rt) && o.health && o.marks && o.environment.Success?
    requires o.environment.value == map[] || SameEnvironment(w.rt.environment, o.environment.value)
    requires id in w.db.revisions && w.db.revisions[id] == AppliedRevision(w.db.revisions[id]) && Usable(w.db, id)
    requires w.db.active == w.db.desired == Some(id) && !w.db.dirty && w.db.revisions[id].configHash == hash
    ensures Finished(w, id, false, config, hash, o.environment.value, ActiveRevision(w.db), o) ==
            (w, Success(Returned(id, w.db.revisions[id])))
  {
    hide SameEnvironment;
    hide ActivateAndMark;
    assert w.db.revisions[id := w.db.revisions[id]] == w.db.revisions;
  }

  lemma ReappliedActive(w: World, id: ID, o: ApplyOracle, born: Births)
    requires Invariant(w.db, born) && ActiveFor(w.db, id, Load(w.db.tables)) && Running(w.rt) && Records(w, o)
    requires o.before.None? && o.after.None? && o.health && o.marks
    requires o.environment.value == map[] || SameEnvironment(w.rt.environment, o.environment.value)
    ensures Apply(w, o) == (w, Success(Returned(id, w.db.revisions[id])))
  {
    hide Valid;
    hide Compilable;
    hide Compiled;
    hide Load;
    hide Record;
    hide Finished;
    hide IdentityOf;
    hide SameEnvironment;
    hide Invariant;
    hide Running;
    LoadedBorn(w.db, born);
    var x := Load(w.db.tables);
    RecordedAgain(w.db, x, o, id, born);
    MarkedAgain(w, id, Compiled(x).json, Compiled(x).sha256, o);
  }

  /** A second apply is a no-op: when nothing landed, the process still answers and needs no other secrets, applying again
      returns the same revision and leaves database and process exactly as they are. */
  lemma SecondApply(w: World, o: ApplyOracle, again: ApplyOracle, born: Births)
    requires Invariant(w.db, born) && o.before.None? && o.after.None? && OneChild(w.rt) && ApplyAgreement.Agree(w)
    requires Apply(w, o).1.Success? && Records(Apply(w, o).0, again) && again.before.None? && again.after.None?
    requires again.health && again.marks
    requires again.environment.value == map[] || SameEnvironment(Apply(w, o).0.rt.environment, again.environment.value)
    ensures Apply(w, o).1.value.id in Apply(w, o).0.db.revisions
    ensures var (after, r) := Apply(w, o); Apply(after, again) == (after, Success(Returned(r.value.id, after.db.revisions[r.value.id])))
  {
    hide Apply;
    hide Records;
    hide SameEnvironment;
    hide OneChild;
    hide Invariant;
    hide Running;
    hide Load;
    AppliedState(w, o, born);
    SuccessRuns(w, o, born);
    ReappliedActive(Apply(w, o).0, Apply(w, o).1.value.id, again, born);
  }

  // ----- restore ------------------------------------------------------------------------------------------

  /** Restore fails only when an outside call does: what apply stored always verifies again. */
  lemma RestoreSucceedsExactly(w: World, id: ID, o: RestoreOracle, born: Births)
    requires Invariant(w.db, born) && GoodLanding(o.landed, born)
    ensures Restore(w, id, o).1.Success? <==>
            && o.readable && id in w.db.revisions && o.environment.Success? && o.invalid.None? && o.activeReads
            && (var (asked, changed) := EnvironmentChanged(w.rt, o.environment.value); Activable(asked, changed, o.activation))
            && o.healthAfter && o.stamp != 0 && o.writes
  {
    hide Valid;
    hide GoodRows;
    hide Compilable;
    hide Compiled;
    hide Checked;
    hide PutBack;
    hide EnvironmentChanged;
    hide RestoredTables;
    hide Marshaled;
    hide Activable;
    if id in w.db.revisions {
      VerifiedAgain(w.db, id, born);
      if o.environment.Success? {
        var (asked, changed) := EnvironmentChanged(w.rt, o.environment.value);
        CheckedExactly(asked, w.db.revisions[id].json, o.environment.value, changed, OptionalConfig(ActiveRevision(w.db)),
                       w.rt.environment, o.activation, o.healthAfter);
      }
    }
  }

  lemma VerifiedAgain(db: Db, id: ID, born: Births)
    requires Invariant(db, born) && id in db.revisions
    ensures Verified(db.revisions[id]) && Restorable(db, id, Parsed(db.revisions[id].body).value)
    ensures BornState(Parsed(db.revisions[id].body).value, born)
  {
    hide GoodRows;
    hide Compilable;
    hide Valid;
    assert Sane(db.revisions[id], born);
    var x := Parsed(db.revisions[id].body).value;
    hide Sane;
    CompiledHash(x);
    MarshalRoundTrip(x);
  }

  lemma BirthsMatch(t: Tables, x: State, born: Births)
    requires BornRows(t, born) && BornState(x, born)
    ensures SameBirths(t, x)
  {
  }

  /** What a successful restore leaves in the database. */
  lemma AfterRestore(w: World, id: ID, o: RestoreOracle, born: Births)
    requires Invariant(w.db, born) && GoodLanding(o.landed, born) && Restore(w, id, o).1.Success?
    ensures id in w.db.revisions && Parsed(w.db.revisions[id].body).Success?
    ensures var now, x, after := Landed(w.db, o.landed).tables, Parsed(w.db.revisions[id].body).value, Restore(w, id, o).0.db;
            && Sound(now) && ValidRows(now) && Valid(x) && SameBirths(now, x)
            && after.tables == RestoredTables(now, x) && id in after.revisions
            && Content(after.revisions[id]) == Content(w.db.revisions[id])
            && Compilable(x) && w.db.revisions[id].configHash == Compiled(x).sha256
            && StateHashed(x) == Success(w.db.revisions[id].stateHash)
  {
    hide Compilable;
    hide Compiled;
    hide Checked;
    hide PutBack;
    hide EnvironmentChanged;
    hide RestoredTables;
    hide Sound;
    hide ValidRows;
    hide Valid;
    hide BornRows;
    hide BornState;
    hide StateHashed;
    LandedKeeps(w.db, o.landed, born);
    VerifiedAgain(w.db, id, born);
    var x := Parsed(w.db.revisions[id].body).value;
    BirthsMatch(Landed(w.db, o.landed).tables, x, born);
    assert Sane(w.db.revisions[id], born);
  }

  /** A restored state whose provider names clash cannot be applied again. */
  lemma ClashBlocksApply(w: World, id: ID, o: RestoreOracle, a: ApplyOracle, born: Births)
    requires Invariant(w.db, born) && GoodLanding(o.landed, born) && Restore(w, id, o).1.Success?
    requires Parsed(w.db.revisions[id].body).Success?
             && !NamesFree(Landed(w.db, o.landed).tables, Parsed(w.db.revisions[id].body).value)
    ensures Apply(Restore(w, id, o).0, a).1.Failure?
  {
    hide Invariant;
    hide Valid;
    hide Compilable;
    hide Compiled;
    hide Restore;
    hide RestoredTables;
    hide Load;
    hide Sound;
    hide ValidRows;
    hide NamesFree;
    hide Record;
    hide Finished;
    AfterRestore(w, id, o, born);
    RestoreValid(Landed(w.db, o.landed).tables, Parsed(w.db.revisions[id].body).value);
  }

  /** Applying right after a restore returns the restored revision exactly when no other provider was stored. */
  lemma RestoreThenApply(w: World, id: ID, o: RestoreOracle, a: ApplyOracle, born: Births)
    requires Invariant(w.db, born) && GoodLanding(o.landed, born) && Restore(w, id, o).1.Success?
    requires GoodLanding(a.before, born) && GoodLanding(a.after, born) && Apply(Restore(w, id, o).0, a).1.Success?
    ensures Parsed(w.db.revisions[id].body).Success?
    ensures Apply(Restore(w, id, o).0, a).1.value.id == id <==>
            forall k :: !LeftBehind(Landed(w.db, o.landed).tables, Parsed(w.db.revisions[id].body).value, k)
  {
    hide Invariant;
    hide Valid;
    hide Compilable;
    hide Compiled;
    hide Restore;
    hide RestoredTables;
    hide Load;
    hide Sound;
    hide ValidRows;
    hide Apply;
    hide IdentityOf;
    hide LeftBehind;
    AfterRestore(w, id, o, born);
    var now, x, w1 := Landed(w.db, o.landed).tables, Parsed(w.db.revisions[id].body).value, Restore(w, id, o).0;
    ApplyRuns.RestoreKeeps(w, id, o, born);
    ApplyKeeps(w1, a, born);
    var (w2, r) := Apply(w1, a);
    RestoreIdentity(now, x);
    RestoreRecompiles(now, x);
    CanonicalValid(Load(w1.db.tables));
    SameContent(w1.db.revisions[id], w.db.revisions[id]);
    SameContent(w2.db.revisions[id], w1.db.revisions[id]);
    if forall k :: !LeftBehind(now, x, k) {
      ApplyRuns.ApplyReuses(w1, a, id, born);
    }
  }
}
