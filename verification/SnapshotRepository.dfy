/** Reading the desired state out of the tables, in the order of the queries. */
module SnapshotRepository {
  import opened Ordering
  import opened Domain
  import opened Snapshot
  import opened Tables
  import opened Database

  // ----- what scanning a row checks ---------------------------------------------------------------

  predicate ScansProvider(p: Provider) { p.Valid() }
  predicate ScansUser(u: User) { ValidID(u.id) && u.createdAt != 0 && u.updatedAt != 0 }
  predicate ScansShare(s: Share) { ValidID(s.id) && s.createdAt != 0 && s.updatedAt != 0 }
  predicate ScansPermission(p: SharePermission) { p.Valid() }

  ghost predicate AllScan<V>(m: map<string, V>, scans: V -> bool) { forall k :: k in m ==> scans(m[k]) }

  ghost predicate Scannable(t: Tables) {
    && t.settings.Valid() && AllScan(t.providers, ScansProvider) && (t.tls.Some? ==> t.tls.value.Valid())
    && AllScan(t.users, ScansUser) && AllScan(t.shares, ScansShare)
    && forall s :: s in t.shares ==> AllScan(PermissionsOf(t, t.shares[s].id), ScansPermission)
  }

  lemma RowsScan<V(!new)>(m: map<string, V>, scans: V -> bool)
    requires forall v :: v in Rows(m) ==> scans(v)
    ensures AllScan(m, scans)
  {
    RowsElements(m);
  }

  lemma ProvidersScan(t: Tables)
    requires ValidProviders(Load(t).providers)
    ensures AllScan(t.providers, ScansProvider)
  {
    hide Provider.Valid;
    SortElements(Rows(t.providers), ProviderKey);
    RowsScan(t.providers, ScansProvider);
  }

  lemma UsersScan(t: Tables)
    requires ValidUsers(Load(t).users)
    ensures AllScan(t.users, ScansUser)
  {
    hide Rows;
    RowsScan(t.users, ScansUser);
  }

  lemma SharesScan(t: Tables, us: seq<User>)
    requires ValidShares(Load(t).shares) && ValidAccess(Load(t).shares, us)
    ensures AllScan(t.shares, ScansShare)
    ensures forall s :: s in t.shares ==> AllScan(PermissionsOf(t, t.shares[s].id), ScansPermission)
  {
    hide Rows;
    hide AllScan;
    hide SharePermission.Valid;
    hide KnownUser;
    LoadRows(t);
    forall s | s in t.shares
      ensures ScansShare(t.shares[s]) && AllScan(PermissionsOf(t, t.shares[s].id), ScansPermission)
    {
      var item := ItemOf(t, t.shares[s]);
      assert item in Load(t).shares && item.share.Valid() && ValidPermissions(item, us);
      RowsScan(PermissionsOf(t, t.shares[s].id), ScansPermission);
    }
    AllOf(t.shares, ScansShare);
  }

  lemma AllOf<V>(m: map<string, V>, scans: V -> bool)
    requires forall k :: k in m ==> scans(m[k])
    ensures AllScan(m, scans)
  {
  }

  /** The rows of a valid state all pass. */
  lemma ValidScans(t: Tables)
    requires Valid(Load(t))
    ensures Scannable(t)
  {
    hide AllScan;
    hide ValidProviders;
    hide ValidUsers;
    hide ValidShares;
    hide ValidAccess;
    hide TLSProfile.Valid;
    hide ServerSettings.Valid;
    ProvidersScan(t);
    UsersScan(t);
    SharesScan(t, Load(t).users);
  }

  // ----- the queries ------------------------------------------------------------------------------------

  /** SELECT ... ORDER BY the unique column, scanning each row. */
  method ScanRows<V(!new)>(m: map<string, V>, scans: V -> bool) returns (r: Result<seq<V>>)
    ensures r == if AllScan(m, scans) then Success(Rows(m)) else Failure
  {
    var keys := SortedKeys(m.Keys, TextKey);
    ListedUnique(keys, m.Keys, TextKey);
    ListedProperties(m.Keys, TextKey);
    var rows: seq<V> := [];
    for i := 0 to |keys|
      invariant |rows| == i && forall j :: 0 <= j < i ==> rows[j] == m[keys[j]] && scans(rows[j])
    {
      assert keys[i] in Listed(m.Keys, TextKey);
      var row := m[keys[i]];
      if !scans(row) { return Failure; }
      rows := rows + [row];
    }
    assert rows == Rows(m);
    RowsScan(m, scans);
    return Success(rows);
  }

  /** The permission query of each share. */
  method ScanPermissions(t: Tables, rows: seq<Share>) returns (r: Result<seq<ShareItem>>)
    ensures r.Success? <==> forall j :: 0 <= j < |rows| ==> AllScan(PermissionsOf(t, rows[j].id), ScansPermission)
    ensures r.Success? ==> |r.value| == |rows| && forall j :: 0 <= j < |rows| ==> r.value[j] == ItemOf(t, rows[j])
  {
    hide AllScan;
    var shares: seq<ShareItem> := [];
    for i := 0 to |rows|
      invariant |shares| == i && forall j :: 0 <= j < i ==> shares[j] == ItemOf(t, rows[j])
      invariant forall j :: 0 <= j < i ==> AllScan(PermissionsOf(t, rows[j].id), ScansPermission)
    {
      var permissions := ScanRows(PermissionsOf(t, rows[i].id), ScansPermission);
      if permissions.Failure? { return Failure; }
      shares := shares + [ShareItem(rows[i], permissions.value)];
    }
    return Success(shares);
  }

  lemma EveryRow(t: Tables)
    ensures (forall j :: 0 <= j < |Rows(t.shares)| ==> AllScan(PermissionsOf(t, Rows(t.shares)[j].id), ScansPermission)) <==>
            (forall s :: s in t.shares ==> AllScan(PermissionsOf(t, t.shares[s].id), ScansPermission))
  {
    hide AllScan;
    RowsElements(t.shares);
    var rows := Rows(t.shares);
    hide Rows;
    if forall j :: 0 <= j < |rows| ==> AllScan(PermissionsOf(t, rows[j].id), ScansPermission) {
      forall s | s in t.shares ensures AllScan(PermissionsOf(t, t.shares[s].id), ScansPermission) {
        assert t.shares[s] in rows;
      }
    }
    if forall s :: s in t.shares ==> AllScan(PermissionsOf(t, t.shares[s].id), ScansPermission) {
      forall j | 0 <= j < |rows| ensures AllScan(PermissionsOf(t, rows[j].id), ScansPermission) {
        assert rows[j] in rows;
        var s :| s in t.shares && t.shares[s] == rows[j];
      }
    }
  }

  lemma ItemsInOrder(t: Tables, shares: seq<ShareItem>)
    requires |shares| == |Rows(t.shares)| && forall j :: 0 <= j < |shares| ==> shares[j] == ItemOf(t, Rows(t.shares)[j])
    ensures shares == Rows(Items(t))
  {
    hide ItemOf;
    ListedProperties(t.shares.Keys, TextKey);
    assert Items(t).Keys == t.shares.Keys;
  }

  class SnapshotRepository {
    const db: Database

    constructor (db: Database)
      ensures this.db == db
    {
      this.db := db;
    }

    method Snapshot(fails: bool) returns (r: Result<State>)
      ensures r == if fails || !Scannable(db.tables) then Failure else Success(Load(db.tables))
    {
      hide AllScan;
      hide Rows;
      if fails { return Failure; }
      var t := db.tables;
      if !t.settings.Valid() { return Failure; }
      var providers := ScanRows(t.providers, ScansProvider);
      if providers.Failure? { return Failure; }
      if t.tls.Some? && !t.tls.value.Valid() { return Failure; }
      var users := ScanRows(t.users, ScansUser);
      if users.Failure? { return Failure; }
      var stored := ScanRows(t.shares, ScansShare);
      if stored.Failure? { return Failure; }
      EveryRow(t);
      var shares := ScanPermissions(t, stored.value);
      if shares.Failure? { return Failure; }
      ItemsInOrder(t, shares.value);
      return Success(State(t.settings, t.tls, SortBy(providers.value, ProviderKey), users.value, shares.value));
    }
  }
}
