/** The revision table, the desired and active pointers, and the transactions that move them. */
module Revisions {
  import opened Ordering
  import opened Domain
  import opened Snapshot
  import opened Identity
  import opened CaddyConfig
  import opened CaddyRuntime
  import opened CompilerSpec
  import opened Tables
  import opened Database

  // ----- specification --------------------------------------------------------------------------

  /** ConfigRevision.Validate, as far as this table goes. */
  predicate ValidRevision(id: ID, r: Revision) {
    && ValidID(id) && r.createdAt != 0 && r.configHash == Sha256(r.json)
    && (r.status.Applied? ==> r.validation.ValidConfig?)
    && (r.error.Some? <==> r.validation.InvalidConfig? || r.status.ApplyFailed?)
  }

  /** The state hash is that of the stored snapshot. */
  ghost predicate HashedBody(r: Revision) {
    r.body.Encoded? ==> Parsed(r.body).Success? && StateHashed(Parsed(r.body).value) == Success(r.stateHash)
  }

  ghost predicate Creatable(db: Db, id: ID, r: Revision) {
    HashedBody(r) && ValidRevision(id, r) && id !in db.revisions
  }

  ghost predicate Matching(r: Revision, config: ConfigHash, state: StateHash) {
    r.configHash == config && r.stateHash == state && r.validation.ValidConfig? && r.body.Encoded?
  }

  /** The newest revision with this identity. */
  ghost predicate Newest(db: Db, id: ID, config: ConfigHash, state: StateHash) {
    && id in db.revisions && Matching(db.revisions[id], config, state)
    && forall other :: other in db.revisions && Matching(db.revisions[other], config, state) ==>
                         db.revisions[other].number <= db.revisions[id].number
  }

  function WithRevision(db: Db, id: ID, r: Revision): Db { db.(revisions := db.revisions[id := r]) }

  function AppliedRevision(r: Revision): Revision { r.(status := Applied, error := None) }

  /** The transaction of Create. */
  function Created(db: Db, id: ID, r: Revision): Db {
    WithRevision(db, id, r.(number := db.next)).(next := db.next + 1, desired := Some(id), dirty := false)
  }

  /** The transaction of MarkApplied. */
  function MadeActive(db: Db, id: ID): Db
    requires id in db.revisions
  {
    WithRevision(db, id, AppliedRevision(db.revisions[id])).(desired := Some(id), active := Some(id), dirty := false)
  }

  function MadeFailed(db: Db, id: ID, code: ErrorCode): Db
    requires id in db.revisions
  {
    WithRevision(db, id, db.revisions[id].(status := ApplyFailed, error := Some(code)))
  }

  predicate Usable(db: Db, id: ID) { id in db.revisions && db.revisions[id].validation.ValidConfig? }

  predicate Deletable(db: Db, id: ID) { id in db.revisions && db.active != Some(id) && db.desired != Some(id) }

  // ----- rewriting the tables from a state ------------------------------------------------------------

  function UserTable(us: seq<User>): map<string, User> {
    if |us| == 0 then map[]
    else var last := us[|us| - 1]; UserTable(us[..|us| - 1])[last.normalized := last]
  }

  function ShareTable(items: seq<ShareItem>): map<string, Share> {
    if |items| == 0 then map[]
    else var last := items[|items| - 1].share; ShareTable(items[..|items| - 1])[last.slug := last]
  }

  function PermissionRowsOf(old': map<(ID, ID), SharePermission>, ps: seq<SharePermission>): map<(ID, ID), SharePermission> {
    if |ps| == 0 then old'
    else var last := ps[|ps| - 1]; PermissionRowsOf(old', ps[..|ps| - 1])[(last.shareID, last.userID) := last]
  }

  function PermissionTable(items: seq<ShareItem>): map<(ID, ID), SharePermission> {
    if |items| == 0 then map[]
    else PermissionRowsOf(PermissionTable(items[..|items| - 1]), items[|items| - 1].permissions)
  }

  /** A provider row that is already there keeps its creation time. */
  function ProviderRow(old': map<ID, Provider>, p: Provider): Provider {
    if p.id in old' then p.(createdAt := old'[p.id].createdAt) else p
  }

  /** INSERT ... ON CONFLICT(id) DO UPDATE, over the rows that are there. */
  function ProviderTable(old': map<ID, Provider>, ps: seq<Provider>): map<ID, Provider> {
    if |ps| == 0 then old'
    else
      var last := ps[|ps| - 1];
      var rows := ProviderTable(old', ps[..|ps| - 1]);
      rows[last.id := ProviderRow(rows, last)]
  }

  function SpelledOut(tls: Option<TLSProfile>): Option<TLSProfile> {
    if tls.Some? then Some(tls.value.(challenge := EffectiveChallenge(tls.value.challenge))) else None
  }

  /** Everything is replaced, except that DNS providers the state does not name stay. */
  function RestoredTables(t: Tables, x: State): Tables {
    Tables(x.settings, SpelledOut(x.tls), ProviderTable(t.providers, x.providers),
           UserTable(x.users), ShareTable(x.shares), PermissionTable(x.shares))
  }

  ghost predicate Restorable(db: Db, id: ID, x: State) {
    Valid(x) && Usable(db, id) && db.revisions[id].body.Encoded? && Marshaled(x) == Success(db.revisions[id].body)
  }

  function Restored(db: Db, id: ID, x: State): Db
    requires id in db.revisions
  {
    MadeActive(db.(tables := RestoredTables(db.tables, x)), id)
  }

  /** RevisionState, with the two numbers. */
  datatype RevisionState = RevisionState(desired: Option<nat>, active: Option<nat>, dirty: bool, pending: bool)

  function NumberOf(db: Db, id: Option<ID>): Option<nat> {
    if id.Some? && id.value in db.revisions then Some(db.revisions[id.value].number) else None
  }

  /** What State reports as pending. */
  predicate Pending(db: Db) { db.dirty || NumberOf(db, db.desired) != NumberOf(db, db.active) }

  // ----- the repository -------------------------------------------------------------------------------------

  // The INSERT loops of RestoreState, over tables just emptied.  A valid state has no rows that clash.

  method InsertUsers(us: seq<User>) returns (users: map<string, User>)
    ensures users == UserTable(us)
  {
    users := map[];
    for i := 0 to |us|
      invariant users == UserTable(us[..i])
    {
      assert us[..i + 1][..i] == us[..i];
      users := users[us[i].normalized := us[i]];
    }
    assert us[..|us|] == us;
  }

  method InsertShares(items: seq<ShareItem>) returns (shares: map<string, Share>, permissions: map<(ID, ID), SharePermission>)
    ensures shares == ShareTable(items) && permissions == PermissionTable(items)
  {
    shares, permissions := map[], map[];
    for i := 0 to |items|
      invariant shares == ShareTable(items[..i]) && permissions == PermissionTable(items[..i])
    {
      assert items[..i + 1][..i] == items[..i];
      var share, ps := items[i].share, items[i].permissions;
      shares := shares[share.slug := share];
      for k := 0 to |ps|
        invariant permissions == PermissionRowsOf(PermissionTable(items[..i]), ps[..k])
      {
        assert ps[..k + 1][..k] == ps[..k];
        permissions := permissions[(ps[k].shareID, ps[k].userID) := ps[k]];
      }
      assert ps[..|ps|] == ps;
    }
    assert items[..|items|] == items;
  }

  method UpsertProviders(old': map<ID, Provider>, ps: seq<Provider>) returns (providers: map<ID, Provider>)
    ensures providers == ProviderTable(old', ps)
  {
    providers := old';
    for i := 0 to |ps|
      invariant providers == ProviderTable(old', ps[..i])
    {
      assert ps[..i + 1][..i] == ps[..i];
      var p := ps[i];
      if p.id in providers { p := p.(createdAt := providers[p.id].createdAt); }
      providers := providers[p.id := p];
    }
    assert ps[..|ps|] == ps;
  }

  /** Each call takes whether the database fails; a failing transaction rolls back. */
  class RevisionRepository {
    const db: Database

    constructor (db: Database)
      ensures this.db == db
    {
      this.db := db;
    }

    method Create(id: ID, r: Revision, fails: bool) returns (created: Option<Revision>)
      modifies db
      ensures if !fails && Creatable(old(db.View()), id, r)
              then created == Some(r.(number := old(db.next))) && db.View() == Created(old(db.View()), id, r)
              else created.None? && db.View() == old(db.View())
    {
      if r.body.Encoded? {
        var state := Parse(r.body);
        if state.Failure? { return None; }
        var hash := HashState(state.value);
        if hash != Success(r.stateHash) { return None; }
      }
      if fails { return None; }
      var number := db.next;
      var row := r.(number := number);
      if !ValidRevision(id, row) || id in db.revisions { return None; }
      db.next := number + 1;
      db.revisions := db.revisions[id := row];
      db.desired, db.dirty := Some(id), false;
      return Some(row);
    }

    method FindByIdentity(config: ConfigHash, state: StateHash, fails: bool) returns (r: Result<Option<ID>>)
      ensures r.Failure? <==> fails
      ensures r.Success? && r.value.Some? ==> Newest(db.View(), r.value.value, config, state)
      ensures r.Success? && r.value.None? ==> forall id :: id in db.revisions ==> !Matching(db.revisions[id], config, state)
    {
      if fails { return Failure; }
      var found: Option<ID> := None;
      var rest := db.revisions.Keys;
      while rest != {}
        invariant rest <= db.revisions.Keys
        invariant found.Some? ==> found.value in db.revisions && Matching(db.revisions[found.value], config, state)
        invariant forall id :: id in db.revisions.Keys - rest && Matching(db.revisions[id], config, state) ==>
                                 found.Some? && db.revisions[id].number <= db.revisions[found.value].number
      {
        var id :| id in rest;
        var row := db.revisions[id];
        if row.configHash == config && row.stateHash == state && row.validation.ValidConfig? && row.body.Encoded?
           && (found.None? || db.revisions[found.value].number < row.number) {
          found := Some(id);
        }
        rest := rest - {id};
      }
      return Success(found);
    }

    method SetDesired(id: ID, fails: bool) returns (ok: bool)
      modifies db
      ensures ok <==> !fails && id in old(db.revisions)
      ensures db.View() == if ok then old(db.View()).(desired := Some(id), dirty := false) else old(db.View())
    {
      if fails || id !in db.revisions { return false; }
      db.desired, db.dirty := Some(id), false;
      return true;
    }

    method MarkApplied(id: ID, fails: bool) returns (ok: bool)
      modifies db
      ensures ok <==> !fails && Usable(old(db.View()), id)
      ensures db.View() == if ok then MadeActive(old(db.View()), id) else old(db.View())
    {
      if fails || id !in db.revisions || !db.revisions[id].validation.ValidConfig? { return false; }
      db.revisions := db.revisions[id := db.revisions[id].(status := Applied, error := None)];
      db.desired, db.active, db.dirty := Some(id), Some(id), false;
      return true;
    }

    method MarkFailed(id: ID, code: ErrorCode, fails: bool) returns (ok: bool)
      modifies db
      ensures ok <==> !fails && Usable(old(db.View()), id)
      ensures db.View() == if ok then MadeFailed(old(db.View()), id, code) else old(db.View())
    {
      if fails || id !in db.revisions || !db.revisions[id].validation.ValidConfig? { return false; }
      db.revisions := db.revisions[id := db.revisions[id].(status := ApplyFailed, error := Some(code))];
      return true;
    }

    method Delete(id: ID, fails: bool) returns (ok: bool)
      modifies db
      ensures ok <==> !fails && Deletable(old(db.View()), id)
      ensures db.View() == if ok then old(db.View()).(revisions := old(db.revisions) - {id}) else old(db.View())
    {
      if fails { return false; }
      if db.active.Some? && db.active.value == id { return false; }
      if db.desired.Some? && db.desired.value == id { return false; }
      if id !in db.revisions { return false; }
      db.revisions := db.revisions - {id};
      return true;
    }

    method RestoreState(x: State, id: ID, fails: bool) returns (ok: bool)
      modifies db
      ensures ok <==> !fails && Restorable(old(db.View()), id, x)
      ensures db.View() == if ok then Restored(old(db.View()), id, x) else old(db.View())
    {
      hide Valid;
      var valid := Validate(x);
      if !valid { return false; }
      var expected := Marshal(x);
      if expected.Failure? || fails { return false; }
      if id !in db.revisions || !db.revisions[id].validation.ValidConfig? { return false; }
      var body := db.revisions[id].body;
      if body.NoBody? || body != expected.value { return false; }
      var users := InsertUsers(x.users);
      var shares, permissions := InsertShares(x.shares);
      var providers := UpsertProviders(db.tables.providers, x.providers);
      var tls := x.tls;
      if tls.Some? && tls.value.challenge.Blank? { tls := Some(tls.value.(challenge := Auto)); }
      db.tables := Tables(x.settings, tls, providers, users, shares, permissions);
      db.revisions := db.revisions[id := db.revisions[id].(status := Applied, error := None)];
      db.desired, db.active, db.dirty := Some(id), Some(id), false;
      return true;
    }

    method Active() returns (active: Option<Revision>)
      ensures active == if db.active.Some? && db.active.value in db.revisions then Some(db.revisions[db.active.value]) else None
    {
      if db.active.Some? && db.active.value in db.revisions { return Some(db.revisions[db.active.value]); }
      return None;
    }

    method State() returns (s: RevisionState)
      ensures s == RevisionState(NumberOf(db.View(), db.desired), NumberOf(db.View(), db.active), db.dirty, Pending(db.View()))
    {
      var desired: Option<nat>, active: Option<nat> := None, None;
      if db.desired.Some? && db.desired.value in db.revisions { desired := Some(db.revisions[db.desired.value].number); }
      if db.active.Some? && db.active.value in db.revisions { active := Some(db.revisions[db.active.value].number); }
      var same := if desired.None? || active.None? then desired.None? && active.None? else desired.value == active.value;
      return RevisionState(desired, active, db.dirty, db.dirty || !same);
    }
  }
}
