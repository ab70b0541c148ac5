/** The state tables of the database, and the desired state read from them. */
module Tables {
  import opened Ordering
  import opened Domain
  import opened Snapshot
  import opened Identity

  /** Rows under their unique columns: users by username_normalized, shares by slug, providers by id,
      permissions by (share_id, user_id).  There is one settings row and at most one TLS row. */
  datatype Tables = Tables(
    settings: ServerSettings, tls: Option<TLSProfile>, providers: map<ID, Provider>,
    users: map<string, User>, shares: map<string, Share>, permissions: map<(ID, ID), SharePermission>)

  // ----- reading rows in key order -----------------------------------------------------------

  ghost function Rows<V(!new)>(m: map<string, V>): seq<V> {
    var keys := Listed(m.Keys, TextKey);
    assert forall k :: k in keys <==> k in m by { ListedProperties(m.Keys, TextKey); }
    seq(|keys|, i requires 0 <= i < |keys| => m[keys[i]])
  }

  lemma RowsElements<V(!new)>(m: map<string, V>)
    ensures forall v :: v in Rows(m) <==> exists k :: k in m && m[k] == v
    ensures forall k :: k in m ==> m[k] in Rows(m)
  {
    var keys := Listed(m.Keys, TextKey);
    ListedProperties(m.Keys, TextKey);
    forall k | k in m ensures m[k] in Rows(m) {
      assert k in keys;
      var i :| 0 <= i < |keys| && keys[i] == k;
      assert Rows(m)[i] == m[k];
    }
  }

  /** A column that differs between any two rows differs between any two positions. */
  lemma RowsDistinct<V(!new), K>(m: map<string, V>, f: V -> K)
    requires forall a, b :: a in m && b in m && f(m[a]) == f(m[b]) ==> a == b
    ensures Distinct(Rows(m), f)
  {
    var keys := Listed(m.Keys, TextKey);
    ListedProperties(m.Keys, TextKey);
    assert Keyed(m.Keys, TextKey);
    AscendingDistinct(keys, TextKey);
    forall i, j | 0 <= i < j < |Rows(m)| ensures f(Rows(m)[i]) != f(Rows(m)[j]) {
      assert TextKey(keys[i]) != TextKey(keys[j]);
    }
  }

  lemma DistinctRows<V(!new), K>(m: map<string, V>, f: V -> K, a: string, b: string)
    requires Distinct(Rows(m), f) && a in m && b in m && f(m[a]) == f(m[b])
    ensures a == b
  {
    var keys := Listed(m.Keys, TextKey);
    ListedProperties(m.Keys, TextKey);
    var i :| 0 <= i < |keys| && keys[i] == a;
    var j :| 0 <= j < |keys| && keys[j] == b;
    assert f(Rows(m)[i]) == f(Rows(m)[j]);
  }

  // ----- SnapshotRepository.Snapshot ---------------------------------------------------------------

  function PermissionsOf(t: Tables, share: ID): map<string, SharePermission> {
    map u | u in (set k | k in t.permissions && k.0 == share :: k.1) :: t.permissions[(share, u)]
  }

  ghost function ItemOf(t: Tables, s: Share): ShareItem { ShareItem(s, Rows(PermissionsOf(t, s.id))) }

  ghost function Items(t: Tables): map<string, ShareItem> { map s | s in t.shares :: ItemOf(t, t.shares[s]) }

  ghost function Load(t: Tables): State {
    State(t.settings, t.tls, SortBy(Rows(t.providers), ProviderKey), Rows(t.users), Rows(Items(t)))
  }

  lemma PermissionRows(t: Tables, share: ID)
    ensures forall p :: p in Rows(PermissionsOf(t, share)) <==> exists u :: (share, u) in t.permissions && t.permissions[(share, u)] == p
  {
    var m := PermissionsOf(t, share);
    RowsElements(m);
    assert forall u :: u in m <==> (share, u) in t.permissions;
  }

  lemma LoadRows(t: Tables)
    ensures forall p :: p in Load(t).providers <==> exists k :: k in t.providers && t.providers[k] == p
    ensures forall u :: u in Load(t).users <==> exists k :: k in t.users && t.users[k] == u
    ensures forall i :: i in Load(t).shares <==> exists k :: k in t.shares && ItemOf(t, t.shares[k]) == i
  {
    hide Rows;
    RowsElements(t.providers);
    SortElements(Rows(t.providers), ProviderKey);
    RowsElements(t.users);
    RowsElements(Items(t));
    assert forall k :: k in Items(t) <==> k in t.shares;
  }

  // ----- constraints -----------------------------------------------------------------------------------

  /** CHECK (challenge IN ('auto', 'dns')). */
  predicate SpelledChallenge(tls: Option<TLSProfile>) { tls.Some? ==> tls.value.challenge.Auto? || tls.value.challenge.Dns? }

  /** Primary keys, unique columns, foreign keys and the check on the challenge. */
  ghost predicate Sound(t: Tables) {
    && SpelledChallenge(t.tls)
    && (forall k :: k in t.providers ==> t.providers[k].id == k)
    && (forall k :: k in t.users ==> t.users[k].normalized == k)
    && (forall a, b :: a in t.users && b in t.users && t.users[a].id == t.users[b].id ==> a == b)
    && (forall k :: k in t.shares ==> t.shares[k].slug == k)
    && (forall a, b :: a in t.shares && b in t.shares && t.shares[a].id == t.shares[b].id ==> a == b)
    && (forall k :: k in t.permissions ==>
          && t.permissions[k].shareID == k.0 && t.permissions[k].userID == k.1
          && ShareWithID(t, k.0) && UserWithID(t, k.1))
  }

  ghost predicate ShareWithID(t: Tables, id: ID) { exists s :: s in t.shares && t.shares[s].id == id }
  ghost predicate UserWithID(t: Tables, id: ID) { exists n :: n in t.users && t.users[n].id == id }

  ghost predicate UniqueProviderNames(t: Tables) {
    forall a, b :: a in t.providers && b in t.providers && t.providers[a].name == t.providers[b].name ==> a == b
  }

  /** Every row passes its own validation, and a DNS profile names a stored provider. */
  ghost predicate ValidRows(t: Tables) {
    && t.settings.Valid()
    && (t.tls.Some? ==>
          && t.tls.value.Valid()
          && (t.tls.value.challenge.Dns? ==> t.tls.value.providerID.Some? && t.tls.value.providerID.value in t.providers))
    && (forall k :: k in t.providers ==> t.providers[k].Valid())
    && (forall k :: k in t.users ==> t.users[k].Valid())
    && (forall k :: k in t.shares ==> t.shares[k].Valid())
    && (forall k :: k in t.permissions ==> t.permissions[k].Valid())
  }

  lemma LoadDistinct(t: Tables)
    requires Sound(t)
    ensures Distinct(Load(t).providers, ProviderID) && Distinct(Load(t).users, UserID)
    ensures Distinct(Load(t).users, UserNormalized)
    ensures Distinct(Load(t).shares, ItemID) && Distinct(Load(t).shares, ItemSlug)
    ensures Distinct(Load(t).providers, ProviderName) <==> UniqueProviderNames(t)
  {
    hide Rows;
    RowsDistinct(t.providers, ProviderID);
    SortDistinct(Rows(t.providers), ProviderKey, ProviderID);
    SortDistinct(Rows(t.providers), ProviderKey, ProviderName);
    RowsDistinct(t.users, UserID);
    RowsDistinct(t.users, UserNormalized);
    RowsDistinct(Items(t), ItemID);
    RowsDistinct(Items(t), ItemSlug);
    if UniqueProviderNames(t) { RowsDistinct(t.providers, ProviderName); }
    if Distinct(Load(t).providers, ProviderName) {
      forall a, b | a in t.providers && b in t.providers && t.providers[a].name == t.providers[b].name ensures a == b {
        DistinctRows(t.providers, ProviderName, a, b);
      }
    }
  }

  lemma LoadKnown(t: Tables)
    requires Sound(t)
    ensures forall id :: KnownUser(Load(t).users, id) <==> UserWithID(t, id)
    ensures forall id :: KnownProvider(Load(t).providers, id) <==> id in t.providers
  {
    hide Load;
    LoadRows(t);
    forall id | UserWithID(t, id) ensures KnownUser(Load(t).users, id) {
      var n :| n in t.users && t.users[n].id == id;
      assert t.users[n] in Load(t).users;
    }
    forall id | id in t.providers ensures KnownProvider(Load(t).providers, id) {
      assert t.providers[id] in Load(t).providers;
    }
  }

  lemma LoadItemValid(t: Tables, s: Share)
    requires Sound(t) && ShareWithID(t, s.id)
    ensures ValidPermissions(ItemOf(t, s), Load(t).users) <==>
            forall u :: (s.id, u) in t.permissions ==> t.permissions[(s.id, u)].Valid()
  {
    hide SharePermission.Valid;
    hide Rows;
    hide KnownUser;
    var item := ItemOf(t, s);
    PermissionRows(t, s.id);
    LoadKnown(t);
    RowsDistinct(PermissionsOf(t, s.id), PermissionUser);
    forall u | (s.id, u) in t.permissions ensures t.permissions[(s.id, u)] in item.permissions { }
  }

  lemma ProviderRows(t: Tables)
    requires Sound(t)
    ensures ValidProviders(Load(t).providers) <==>
            (forall k :: k in t.providers ==> t.providers[k].Valid()) && UniqueProviderNames(t)
  {
    hide Provider.Valid;
    hide UniqueProviderNames;
    LoadRows(t);
    LoadDistinct(t);
    forall k | k in t.providers ensures t.providers[k] in Load(t).providers { }
  }

  lemma UserRows(t: Tables)
    requires Sound(t)
    ensures ValidUsers(Load(t).users) <==> forall k :: k in t.users ==> t.users[k].Valid()
  {
    hide User.Valid;
    LoadRows(t);
    LoadDistinct(t);
    forall k | k in t.users ensures t.users[k] in Load(t).users { }
  }

  lemma ShareRows(t: Tables)
    requires Sound(t)
    ensures ValidShares(Load(t).shares) <==> forall k :: k in t.shares ==> t.shares[k].Valid()
  {
    hide Share.Valid;
    LoadRows(t);
    LoadDistinct(t);
    forall k | k in t.shares ensures ItemOf(t, t.shares[k]) in Load(t).shares && ItemOf(t, t.shares[k]).share == t.shares[k] { }
  }

  /** The state read from sound tables is valid exactly when the rows are and provider names do not repeat. */
  lemma LoadValid(t: Tables)
    requires Sound(t)
    ensures Valid(Load(t)) <==> ValidRows(t) && UniqueProviderNames(t)
  {
    hide ServerSettings.Valid;
    hide TLSProfile.Valid;
    hide Provider.Valid;
    hide User.Valid;
    hide Share.Valid;
    hide SharePermission.Valid;
    hide ValidProviders;
    hide ValidUsers;
    hide ValidShares;
    hide ValidAccess;
    hide KnownProvider;
    hide UniqueProviderNames;
    ProviderRows(t);
    UserRows(t);
    ShareRows(t);
    AccessRows(t);
    LoadKnown(t);
    assert Load(t).settings == t.settings && Load(t).tls == t.tls;
    hide Load;
    hide Sound;
  }

  lemma AccessRows(t: Tables)
    requires Sound(t)
    ensures ValidAccess(Load(t).shares, Load(t).users) <==> (forall k :: k in t.permissions ==> t.permissions[k].Valid())
  {
    hide SharePermission.Valid;
    hide ValidPermissions;
    LoadRows(t);
    forall k | k in t.shares
      ensures ValidPermissions(ItemOf(t, t.shares[k]), Load(t).users) <==>
              forall u :: (t.shares[k].id, u) in t.permissions ==> t.permissions[(t.shares[k].id, u)].Valid()
      ensures ItemOf(t, t.shares[k]) in Load(t).shares
    {
      LoadItemValid(t, t.shares[k]);
    }
    if ValidAccess(Load(t).shares, Load(t).users) {
      forall k | k in t.permissions ensures t.permissions[k].Valid() {
        var s :| s in t.shares && t.shares[s].id == k.0;
        assert (t.shares[s].id, k.1) == k;
      }
    }
  }

  // ----- facts of the tables -------------------------------------------------------------------------------

  ghost function ShareFactsOf(t: Tables, s: Share): ShareFacts {
    ShareFacts(s.id, s.name, s.slug, s.path, s.enabled,
               set k | k in t.permissions && k.0 == s.id && IsGrant(t.permissions[k]) :: GrantCoreOf(t.permissions[k]))
  }

  ghost function TableFacts(t: Tables): StateFacts {
    StateFacts(SettingsCoreOf(t.settings), OptionalTLSCore(t.tls),
               set k | k in t.providers :: FactsOfProvider(t.providers[k]),
               set k | k in t.users :: UserCoreOf(t.users[k]),
               set k | k in t.shares :: ShareFactsOf(t, t.shares[k]))
  }

  lemma ItemFacts(t: Tables, s: Share)
    ensures FactsOfItem(ItemOf(t, s)) == ShareFactsOf(t, s)
  {
    hide Rows;
    PermissionRows(t, s.id);
    var a, b := FactsOfItem(ItemOf(t, s)).grants, ShareFactsOf(t, s).grants;
    forall g | g in a ensures g in b {
      var p :| p in ItemOf(t, s).permissions && IsGrant(p) && GrantCoreOf(p) == g;
      var u :| (s.id, u) in t.permissions && t.permissions[(s.id, u)] == p;
      assert (s.id, u).0 == s.id;
    }
    forall g | g in b ensures g in a {
      var k :| k in t.permissions && k.0 == s.id && IsGrant(t.permissions[k]) && GrantCoreOf(t.permissions[k]) == g;
      assert (s.id, k.1) == k;
    }
  }

  lemma LoadProviderFacts(t: Tables)
    ensures Image(FactsOfProvider, Load(t).providers) == set k | k in t.providers :: FactsOfProvider(t.providers[k])
  {
    LoadRows(t);
    forall k | k in t.providers ensures t.providers[k] in Load(t).providers { }
  }

  lemma LoadUserFacts(t: Tables)
    ensures Image(UserCoreOf, Load(t).users) == set k | k in t.users :: UserCoreOf(t.users[k])
  {
    LoadRows(t);
    forall k | k in t.users ensures t.users[k] in Load(t).users { }
  }

  lemma LoadShareFacts(t: Tables)
    ensures Image(FactsOfItem, Load(t).shares) == set k | k in t.shares :: ShareFactsOf(t, t.shares[k])
  {
    hide FactsOfItem;
    hide ShareFactsOf;
    LoadRows(t);
    forall k | k in t.shares ensures ItemOf(t, t.shares[k]) in Load(t).shares
      && FactsOfItem(ItemOf(t, t.shares[k])) == ShareFactsOf(t, t.shares[k]) {
      ItemFacts(t, t.shares[k]);
    }
    hide Load;
    hide ItemOf;
  }

  /** Reading the tables loses and adds nothing. */
  lemma LoadFacts(t: Tables)
    ensures Facts(Load(t)) == TableFacts(t)
  {
    LoadProviderFacts(t);
    LoadUserFacts(t);
    LoadShareFacts(t);
  }
}
