/** What every transaction on the revision table keeps. */
module RevisionProperties {
  import opened Ordering
  import opened Domain
  import opened Snapshot
  import opened Identity
  import opened CaddyRuntime
  import opened CompilerSpec
  import opened ConfigIdentity
  import opened Tables
  import opened Database
  import opened Revisions
  import opened RestoreProperties

  // ----- invariants ---------------------------------------------------------------------------------

  /** The stored snapshot reads back, and recompiles and rehashes to what is stored beside it. */
  ghost predicate Consistent(r: Revision) {
    && r.validation.ValidConfig? && r.body.Encoded? && Parsed(r.body).Success?
    && (var x := Parsed(r.body).value;
        && Marshaled(x) == Success(r.body) && StateHashed(x) == Success(r.stateHash)
        && Compilable(x) && r.json == Compiled(x).json && r.configHash == Sha256(r.json))
  }

  ghost function StateOf(r: Revision): State
    requires Consistent(r)
  {
    Parsed(r.body).value
  }

  predicate SameIdentity(r: Revision, s: Revision) { r.configHash == s.configHash && r.stateHash == s.stateHash }

  /** When each provider identifier was created.  Identifiers are random and never reused, and no statement changes
      created_at, so one such assignment describes a whole run. */
  type Births = ID -> Timestamp

  ghost predicate BornRows(t: Tables, born: Births) { forall k :: k in t.providers ==> t.providers[k].createdAt == born(k) }

  ghost predicate BornState(x: State, born: Births) { forall p :: p in x.providers ==> p.createdAt == born(p.id) }

  ghost predicate Sane(r: Revision, born: Births) { Consistent(r) && BornState(StateOf(r), born) }

  ghost predicate AllSane(db: Db, born: Births) { forall id :: id in db.revisions ==> Sane(db.revisions[id], born) }

  /** The unique column revision_number. */
  ghost predicate UniqueNumbers(db: Db) {
    forall a, b :: a in db.revisions && b in db.revisions && db.revisions[a].number == db.revisions[b].number ==> a == b
  }

  ghost predicate Numbered(db: Db) {
    (forall id :: id in db.revisions ==> db.revisions[id].number < db.next) && UniqueNumbers(db)
  }

  ghost predicate OnePerIdentity(db: Db) {
    forall a, b :: a in db.revisions && b in db.revisions && SameIdentity(db.revisions[a], db.revisions[b]) ==> a == b
  }

  /** Desired and active name stored revisions, and the active one was applied. */
  predicate Pointers(db: Db) {
    && (db.desired.Some? ==> db.desired.value in db.revisions)
    && (db.active.Some? ==> Usable(db, db.active.value) && db.revisions[db.active.value].status.Applied?)
  }

  ghost predicate GoodRows(t: Tables, born: Births) { Sound(t) && ValidRows(t) && BornRows(t, born) }

  ghost predicate Invariant(db: Db, born: Births) {
    Pointers(db) && AllSane(db, born) && Numbered(db) && OnePerIdentity(db) && GoodRows(db.tables, born)
  }

  /** A clean database holds, in its tables, the configuration of the desired revision. */
  ghost predicate UpToDate(db: Db) {
    !db.dirty && db.desired.Some? && db.desired.value in db.revisions ==>
      Compilable(Load(db.tables)) && Compiled(Load(db.tables)).json == db.revisions[db.desired.value].json
  }

  /** What never changes about a revision. */
  function Content(r: Revision): Revision { r.(status := NotApplied, error := None) }

  /** Time passes from db to db': no number is taken back, and a revision keeps its content. */
  ghost predicate Follows(db: Db, db': Db) {
    && db.next <= db'.next
    && forall id :: id in db'.revisions ==>
         (id in db.revisions && Content(db'.revisions[id]) == Content(db.revisions[id])) || db.next <= db'.revisions[id].number
  }

  lemma FollowsTransitive(a: Db, b: Db, c: Db)
    requires Follows(a, b) && Follows(b, c)
    ensures Follows(a, c)
  {
  }

  // ----- recording a state as desired ------------------------------------------------------------------

  /** newRevision, for a state that was compiled, marshalled and hashed. */
  ghost function NewRevision(x: State, stamp: Timestamp): Revision
    requires Valid(x) && Compilable(x)
  {
    Revision(0, stamp, Compiled(x).json, Encoded(ConfigRevisionSnapshot(SNAPSHOT_VERSION, Canonical(x))),
             Compiled(x).sha256, Sha256(IdentityOf(x)), ValidConfig, NotApplied, None)
  }

  lemma NewRevisionSane(x: State, stamp: Timestamp, born: Births)
    requires Valid(x) && Compilable(x) && BornState(x, born)
    ensures Sane(NewRevision(x, stamp), born) && HashedBody(NewRevision(x, stamp))
    ensures Marshaled(x) == Success(NewRevision(x, stamp).body) && StateHashed(x) == Success(NewRevision(x, stamp).stateHash)
    ensures StateOf(NewRevision(x, stamp)) == Canonical(x)
  {
    hide Valid;
    hide Compilable;
    hide Compiled;
    hide Canonical;
    StoredStateRecompiles(x);
    MarshalRoundTrip(x);
    CanonicalValid(x);
    CompiledHash(x);
    CanonicalBorn(x, born);
  }

  lemma CompiledHash(x: State)
    requires Compilable(x)
    ensures Compiled(x).sha256 == Sha256(Compiled(x).json)
  {
  }

  lemma CanonicalBorn(x: State, born: Births)
    requires BornState(x, born)
    ensures BornState(Canonical(x), born)
  {
    SortedMapElements(x.providers, CanonicalProvider, ProviderKey);
  }

  lemma LoadBorn(t: Tables, born: Births)
    requires Sound(t) && BornRows(t, born)
    ensures BornState(Load(t), born)
  {
    hide Rows;
    LoadRows(t);
  }

  lemma SaneMatching(r: Revision, born: Births)
    requires Sane(r, born)
    ensures Matching(r, r.configHash, r.stateHash) && r.validation.ValidConfig?
  {
    hide Compilable;
    hide Compiled;
  }

  /** Number, status and error do not take part. */
  lemma SaneIgnores(r: Revision, number: nat, status: ApplyStatus, error: Option<ErrorCode>, born: Births)
    requires Sane(r, born)
    ensures Sane(r.(number := number, status := status, error := error), born)
  {
  }

  lemma CreatedNumbered(db: Db, id: ID, r: Revision)
    requires Numbered(db) && id !in db.revisions
    ensures Numbered(Created(db, id, r)) && Follows(db, Created(db, id, r))
  {
  }

  lemma CreatedOnePerIdentity(db: Db, id: ID, r: Revision)
    requires OnePerIdentity(db) && forall other :: other in db.revisions ==> !SameIdentity(db.revisions[other], r)
    ensures OnePerIdentity(Created(db, id, r))
  {
  }

  lemma CreatedSane(db: Db, id: ID, r: Revision, born: Births)
    requires AllSane(db, born) && Sane(r, born)
    ensures AllSane(Created(db, id, r), born)
  {
    hide Sane;
    SaneIgnores(r, db.next, r.status, r.error, born);
  }

  /** Creating a revision whose identity is not stored yet. */
  lemma CreatedKeeps(db: Db, id: ID, r: Revision, born: Births)
    requires Invariant(db, born) && Sane(r, born) && id !in db.revisions && !r.status.Applied?
    requires forall other :: other in db.revisions ==> !Matching(db.revisions[other], r.configHash, r.stateHash)
    ensures Invariant(Created(db, id, r), born) && Follows(db, Created(db, id, r))
  {
    hide Sane;
    hide GoodRows;
    hide Matching;
    hide Numbered;
    hide OnePerIdentity;
    hide Follows;
    forall other | other in db.revisions ensures !SameIdentity(db.revisions[other], r) {
      assert Sane(db.revisions[other], born);
      SaneMatching(db.revisions[other], born);
    }
    CreatedNumbered(db, id, r);
    CreatedOnePerIdentity(db, id, r);
    CreatedSane(db, id, r, born);
  }

  lemma DesiredKeeps(db: Db, id: ID, born: Births)
    requires Invariant(db, born) && id in db.revisions
    ensures Invariant(db.(desired := Some(id), dirty := false), born) && Follows(db, db.(desired := Some(id), dirty := false))
  {
    hide Sane;
    hide GoodRows;
  }

  lemma MadeActiveKeeps(db: Db, id: ID, born: Births)
    requires Invariant(db, born) && Usable(db, id)
    ensures Invariant(MadeActive(db, id), born) && Follows(db, MadeActive(db, id))
  {
    hide Sane;
    hide GoodRows;
    SaneIgnores(db.revisions[id], db.revisions[id].number, Applied, None, born);
  }

  lemma MadeFailedKeeps(db: Db, id: ID, code: ErrorCode, born: Births)
    requires Invariant(db, born) && Usable(db, id) && db.active != Some(id)
    ensures Invariant(MadeFailed(db, id, code), born) && Follows(db, MadeFailed(db, id, code))
  {
    hide Sane;
    hide GoodRows;
    SaneIgnores(db.revisions[id], db.revisions[id].number, ApplyFailed, Some(code), born);
  }

  lemma DeletedKeeps(db: Db, id: ID, born: Births)
    requires Invariant(db, born) && Deletable(db, id)
    ensures Invariant(db.(revisions := db.revisions - {id}), born) && Follows(db, db.(revisions := db.revisions - {id}))
    ensures UpToDate(db) ==> UpToDate(db.(revisions := db.revisions - {id}))
  {
    hide Sane;
    hide GoodRows;
    hide Compilable;
    hide Compiled;
    hide Load;
  }

  // ----- mutations and restores --------------------------------------------------------------------------

  /** Every write to a state table fires a trigger that sets the dirty flag. */
  function Mutated(db: Db, t: Tables): Db { db.(tables := t, dirty := true) }

  lemma MutatedKeeps(db: Db, t: Tables, born: Births)
    requires Invariant(db, born) && GoodRows(t, born)
    ensures Invariant(Mutated(db, t), born) && Follows(db, Mutated(db, t)) && UpToDate(Mutated(db, t))
  {
    hide Sane;
    hide GoodRows;
  }

  lemma RestoredRowsGood(t: Tables, x: State, born: Births)
    requires Valid(x) && GoodRows(t, born) && BornState(x, born)
    ensures SameBirths(t, x) && GoodRows(RestoredTables(t, x), born)
    ensures Compilable(x) && Compilable(Load(RestoredTables(t, x))) && Compiled(Load(RestoredTables(t, x))) == Compiled(x)
  {
    hide Sound;
    hide ValidRows;
    hide Compilable;
    hide Compiled;
    hide Load;
    hide ValidTLS;
    hide ValidUsers;
    hide ValidShares;
    hide ValidAccess;
    hide Provider.Valid;
    RestoredProviders(t, x);
    hide RestoredTables;
    RestoreRecompiles(t, x);
  }

  /** The restored state is what the revision stores. */
  lemma RestorableState(db: Db, id: ID, x: State, born: Births)
    requires Invariant(db, born) && Restorable(db, id, x)
    ensures Canonical(x) == StateOf(db.revisions[id]) && Compilable(x) && db.revisions[id].json == Compiled(x).json
  {
    hide Valid;
    hide Compilable;
    hide Compiled;
    hide GoodRows;
    hide Canonical;
    assert Sane(db.revisions[id], born);
    MarshalRoundTrip(x);
    StoredStateRecompiles(x);
  }

  lemma RestoredKeeps(db: Db, id: ID, x: State, born: Births)
    requires Invariant(db, born) && Restorable(db, id, x) && BornState(x, born)
    ensures Invariant(Restored(db, id, x), born) && UpToDate(Restored(db, id, x)) && Follows(db, Restored(db, id, x))
  {
    hide Valid;
    hide Sane;
    hide GoodRows;
    hide Compilable;
    hide Compiled;
    hide Load;
    hide RestoredTables;
    RestorableState(db, id, x, born);
    RestoredRowsGood(db.tables, x, born);
    var moved := db.(tables := RestoredTables(db.tables, x));
    MadeActiveKeeps(moved, id, born);
  }
}
