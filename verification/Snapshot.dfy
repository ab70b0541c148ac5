/** Revision snapshots: validation of a desired state, its canonical stored form,
    and the identity that decides whether two states are the same revision. */
module Snapshot {
  import opened Ordering
  import opened Domain

  // ----- which states are valid ------------------------------------------------

  ghost predicate ValidProviders(ps: seq<Provider>) {
    && (forall p :: p in ps ==> p.Valid())
    && Distinct(ps, ProviderID) && Distinct(ps, ProviderName)
  }

  ghost predicate ValidUsers(us: seq<User>) {
    && (forall u :: u in us ==> u.Valid())
    && Distinct(us, UserID) && Distinct(us, UserNormalized)
  }

  ghost predicate KnownUser(us: seq<User>, id: ID) {
    exists u :: u in us && u.id == id
  }

  ghost predicate ValidPermissions(item: ShareItem, us: seq<User>) {
    && (forall p :: p in item.permissions ==>
          p.Valid() && p.shareID == item.share.id && KnownUser(us, p.userID))
    && Distinct(item.permissions, PermissionUser)
  }

  ghost predicate ValidShares(items: seq<ShareItem>) {
    && (forall item :: item in items ==> item.share.Valid())
    && Distinct(items, ItemID) && Distinct(items, ItemSlug)
  }

  ghost predicate ValidAccess(items: seq<ShareItem>, us: seq<User>) {
    forall item :: item in items ==> ValidPermissions(item, us)
  }

  ghost predicate KnownProvider(ps: seq<Provider>, id: ID) {
    exists p :: p in ps && p.id == id
  }

  ghost predicate ValidTLS(tls: Option<TLSProfile>, ps: seq<Provider>) {
    tls.Some? ==>
      && tls.value.Valid()
      && (tls.value.challenge.Dns? ==> tls.value.providerID.Some? && KnownProvider(ps, tls.value.providerID.value))
  }

  /** RuntimeConfigInput.Validate. */
  ghost predicate Valid(x: State) {
    && x.settings.Valid() && ValidTLS(x.tls, x.providers)
    && ValidProviders(x.providers) && ValidUsers(x.users) && ValidShares(x.shares)
    && ValidAccess(x.shares, x.users)
  }

  /** The seen-map idiom: the f-values of a prefix. */
  ghost predicate Seen<T, K(!new)>(seen: set<K>, s: seq<T>, i: nat, f: T -> K)
    requires i <= |s|
  {
    && (forall k :: k in seen <==> exists j :: 0 <= j < i && f(s[j]) == k)
    && Distinct(s[..i], f)
  }

  lemma SeenStep<T, K(!new)>(seen: set<K>, s: seq<T>, i: nat, f: T -> K)
    requires i < |s| && Seen(seen, s, i, f)
    ensures f(s[i]) in seen ==> !Distinct(s, f)
    ensures f(s[i]) !in seen ==>
              Seen(seen + {f(s[i])}, s, i + 1, f) && forall j :: 0 <= j < i ==> f(s[j]) != f(s[i])
  {
  }

  lemma SeenNone<T, K(!new)>(s: seq<T>, f: T -> K)
    ensures Seen({}, s, 0, f)
  {
  }

  lemma SeenAll<T, K(!new)>(seen: set<K>, s: seq<T>, f: T -> K)
    requires Seen(seen, s, |s|, f)
    ensures Distinct(s, f)
    ensures forall k :: k in seen <==> exists x :: x in s && f(x) == k
  {
  }

  method ValidateProviders(ps: seq<Provider>) returns (ok: bool, ids: set<ID>)
    ensures ok <==> ValidProviders(ps)
    ensures ok ==> forall id :: id in ids <==> KnownProvider(ps, id)
  {
    hide Seen;
    hide Provider.Valid;
    var names: set<string> := {};
    ids := {};
    SeenNone(ps, ProviderID);
    SeenNone(ps, ProviderName);
    for i := 0 to |ps|
      invariant forall j :: 0 <= j < i ==> ps[j].Valid()
      invariant Seen(ids, ps, i, ProviderID) && Seen(names, ps, i, ProviderName)
    {
      var provider := ps[i];
      assert provider in ps;
      SeenStep(ids, ps, i, ProviderID);
      SeenStep(names, ps, i, ProviderName);
      if !provider.Valid() || provider.id in ids || provider.name in names { return false, ids; }
      ids, names := ids + {provider.id}, names + {provider.name};
    }
    SeenAll(ids, ps, ProviderID);
    SeenAll(names, ps, ProviderName);
    return true, ids;
  }

  method ValidateUsers(us: seq<User>) returns (ok: bool, ids: set<ID>)
    ensures ok <==> ValidUsers(us)
    ensures ok ==> forall id :: id in ids <==> KnownUser(us, id)
  {
    hide Seen;
    hide User.Valid;
    var normalized: set<string> := {};
    ids := {};
    SeenNone(us, UserID);
    SeenNone(us, UserNormalized);
    for i := 0 to |us|
      invariant forall j :: 0 <= j < i ==> us[j].Valid()
      invariant Seen(ids, us, i, UserID) && Seen(normalized, us, i, UserNormalized)
    {
      var user := us[i];
      assert user in us;
      SeenStep(ids, us, i, UserID);
      SeenStep(normalized, us, i, UserNormalized);
      if !user.Valid() || user.id in ids || user.normalized in normalized { return false, ids; }
      ids, normalized := ids + {user.id}, normalized + {user.normalized};
    }
    SeenAll(ids, us, UserID);
    SeenAll(normalized, us, UserNormalized);
    return true, ids;
  }

  method ValidatePermissions(item: ShareItem, users: set<ID>, ghost us: seq<User>) returns (ok: bool)
    requires forall id :: id in users <==> KnownUser(us, id)
    ensures ok <==> ValidPermissions(item, us)
  {
    hide Seen;
    hide SharePermission.Valid;
    var ps := item.permissions;
    var seen: set<string> := {};
    SeenNone(ps, PermissionUser);
    for k := 0 to |ps|
      invariant forall j :: 0 <= j < k ==>
                              ps[j].Valid() && ps[j].shareID == item.share.id && KnownUser(us, ps[j].userID)
      invariant Seen(seen, ps, k, PermissionUser)
    {
      var permission := ps[k];
      SeenStep(seen, ps, k, PermissionUser);
      if !permission.Valid() || permission.shareID != item.share.id
         || permission.userID !in users || permission.userID in seen {
        return false;
      }
      seen := seen + {permission.userID};
    }
    SeenAll(seen, ps, PermissionUser);
    return true;
  }

  ghost predicate AcceptableItem(item: ShareItem, us: seq<User>) {
    item.share.Valid() && ValidPermissions(item, us)
  }

  method ValidateItem(item: ShareItem, users: set<ID>, ghost us: seq<User>) returns (ok: bool)
    requires forall id :: id in users <==> KnownUser(us, id)
    ensures ok <==> AcceptableItem(item, us)
  {
    if !item.share.Valid() { return false; }
    ok := ValidatePermissions(item, users, us);
  }

  lemma AcceptableItems(items: seq<ShareItem>, us: seq<User>)
    ensures ValidShares(items) && ValidAccess(items, us) <==>
            && (forall j :: 0 <= j < |items| ==> AcceptableItem(items[j], us))
            && Distinct(items, ItemID) && Distinct(items, ItemSlug)
  {
  }

  method ValidateShares(items: seq<ShareItem>, users: set<ID>, ghost us: seq<User>) returns (ok: bool)
    requires forall id :: id in users <==> KnownUser(us, id)
    ensures ok <==> ValidShares(items) && ValidAccess(items, us)
  {
    hide AcceptableItem;
    hide Seen;
    var shares, slugs: set<string> := {}, {};
    SeenNone(items, ItemID);
    SeenNone(items, ItemSlug);
    AcceptableItems(items, us);
    for i := 0 to |items|
      invariant forall j :: 0 <= j < i ==> AcceptableItem(items[j], us)
      invariant Seen(shares, items, i, ItemID) && Seen(slugs, items, i, ItemSlug)
    {
      var item := items[i];
      SeenStep(shares, items, i, ItemID);
      SeenStep(slugs, items, i, ItemSlug);
      if item.share.id in shares || item.share.slug in slugs { return false; }
      shares, slugs := shares + {item.share.id}, slugs + {item.share.slug};
      var itemOk := ValidateItem(item, users, us);
      if !itemOk { return false; }
    }
    SeenAll(shares, items, ItemID);
    SeenAll(slugs, items, ItemSlug);
    return true;
  }

  /** RuntimeConfigInput.Validate. */
  method Validate(x: State) returns (ok: bool)
    ensures ok <==> Valid(x)
  {
    if !x.settings.Valid() { return false; }
    if x.tls.Some? && !x.tls.value.Valid() { return false; }
    var providersOk, providers := ValidateProviders(x.providers);
    if !providersOk { return false; }
    if x.tls.Some? && x.tls.value.challenge.Dns? {
      if x.tls.value.providerID.None? || x.tls.value.providerID.value !in providers { return false; }
    }
    var usersOk, users := ValidateUsers(x.users);
    if !usersOk { return false; }
    ok := ValidateShares(x.shares, users, x.users);
  }

  // ----- the stored form ---------------------------------------------------------

  datatype ConfigRevisionSnapshot = ConfigRevisionSnapshot(version: int, state: State)

  const SNAPSHOT_VERSION := 1

  function CanonicalItem(item: ShareItem): ShareItem {
    item.(permissions := SortBy(item.permissions, PermissionKey))
  }

  function CanonicalProvider(p: Provider): Provider {
    p.(zones := SortBy(p.zones, TextKey))
  }

  /** The same state with every list in its canonical order. */
  function Canonical(x: State): State {
    State(x.settings, x.tls,
          SortBy(Map(CanonicalProvider, x.providers), ProviderKey),
          SortBy(x.users, UserKey),
          SortBy(Map(CanonicalItem, x.shares), ItemKey))
  }

  method NewConfigRevisionSnapshot(x: State) returns (r: ConfigRevisionSnapshot)
    ensures r == ConfigRevisionSnapshot(SNAPSHOT_VERSION, Canonical(x))
  {
    var users: seq<User> := [];
    for i := 0 to |x.users|
      invariant users == x.users[..i]
    {
      users := users + [x.users[i]];
    }
    var shares: seq<ShareItem> := [];
    for i := 0 to |x.shares|
      invariant shares == Map(CanonicalItem, x.shares)[..i]
    {
      var permissions := SortBy(x.shares[i].permissions, PermissionKey);
      shares := shares + [ShareItem(x.shares[i].share, permissions)];
    }
    assert users == x.users && shares == Map(CanonicalItem, x.shares);
    users, shares := SortBy(users, UserKey), SortBy(shares, ItemKey);
    var providers := x.providers;
    for i := 0 to |providers|
      invariant |providers| == |x.providers|
      invariant forall j :: 0 <= j < |providers| ==>
                              providers[j] == if j < i then CanonicalProvider(x.providers[j]) else x.providers[j]
    {
      providers := providers[i := providers[i].(zones := SortBy(providers[i].zones, TextKey))];
    }
    assert providers == Map(CanonicalProvider, x.providers);
    return ConfigRevisionSnapshot(SNAPSHOT_VERSION, State(x.settings, x.tls, SortBy(providers, ProviderKey), users, shares));
  }

  /** A state_snapshot_json column: empty, or the JSON of a snapshot (taken as the value it encodes). */
  datatype Body = NoBody | Encoded(snapshot: ConfigRevisionSnapshot)

  ghost predicate ValidSnapshot(s: ConfigRevisionSnapshot) {
    s.version == SNAPSHOT_VERSION && Valid(s.state)
  }

  ghost function Marshaled(x: State): Result<Body> {
    var s := ConfigRevisionSnapshot(SNAPSHOT_VERSION, Canonical(x));
    if ValidSnapshot(s) then Success(Encoded(s)) else Failure
  }

  ghost function Parsed(b: Body): Result<State> {
    if b.Encoded? && ValidSnapshot(b.snapshot) then Success(b.snapshot.state) else Failure
  }

  method Marshal(x: State) returns (r: Result<Body>)
    ensures r == Marshaled(x)
  {
    var s := NewConfigRevisionSnapshot(x);
    var ok := Validate(s.state);
    if !ok || s.version != SNAPSHOT_VERSION { return Failure; }
    return Success(Encoded(s));
  }

  method Parse(b: Body) returns (r: Result<State>)
    ensures r == Parsed(b)
  {
    if b.NoBody? || b.snapshot.version != SNAPSHOT_VERSION { return Failure; }
    var ok := Validate(b.snapshot.state);
    if !ok { return Failure; }
    return Success(b.snapshot.state);
  }

  // ----- what the canonical form keeps ----------------------------------------------

  lemma MapDistinct<T, U, K>(s: seq<T>, g: T -> U, f: T -> K, h: U -> K)
    requires forall i :: 0 <= i < |s| ==> h(g(s[i])) == f(s[i])
    ensures Distinct(Map(g, s), h) <==> Distinct(s, f)
  {
  }

  /** Elements of a sorted, mapped list come from the original one. */
  lemma SortedMapElements<T(!new), U(!new)>(s: seq<T>, g: T -> U, key: U -> Key)
    ensures forall x :: x in s ==> g(x) in SortBy(Map(g, s), key)
    ensures forall y :: y in SortBy(Map(g, s), key) ==> exists x :: x in s && g(x) == y
  {
    SortElements(Map(g, s), key);
    forall x | x in s ensures g(x) in SortBy(Map(g, s), key) {
      var i :| 0 <= i < |s| && s[i] == x;
      assert Map(g, s)[i] == g(x);
    }
    forall y | y in SortBy(Map(g, s), key) ensures exists x :: x in s && g(x) == y {
      var i :| 0 <= i < |s| && Map(g, s)[i] == y;
      assert s[i] in s && g(s[i]) == y;
    }
  }

  lemma CanonicalProviderValid(p: Provider)
    ensures CanonicalProvider(p).Valid() <==> p.Valid()
  {
    SortElements(p.zones, TextKey);
    SortDistinct(p.zones, TextKey, TextKey);
  }

  lemma CanonicalProvidersValid(ps: seq<Provider>)
    ensures ValidProviders(SortBy(Map(CanonicalProvider, ps), ProviderKey)) <==> ValidProviders(ps)
    ensures forall id :: KnownProvider(SortBy(Map(CanonicalProvider, ps), ProviderKey), id) <==> KnownProvider(ps, id)
  {
    var qs := Map(CanonicalProvider, ps);
    SortedMapElements(ps, CanonicalProvider, ProviderKey);
    SortDistinct(qs, ProviderKey, ProviderID);
    SortDistinct(qs, ProviderKey, ProviderName);
    MapDistinct(ps, CanonicalProvider, ProviderID, ProviderID);
    MapDistinct(ps, CanonicalProvider, ProviderName, ProviderName);
    forall p ensures CanonicalProvider(p).Valid() <==> p.Valid() { CanonicalProviderValid(p); }
    forall id | KnownProvider(ps, id) ensures KnownProvider(SortBy(qs, ProviderKey), id) {
      var p :| p in ps && p.id == id;
      assert CanonicalProvider(p) in SortBy(qs, ProviderKey);
    }
  }

  lemma CanonicalUsersValid(us: seq<User>)
    ensures ValidUsers(SortBy(us, UserKey)) <==> ValidUsers(us)
    ensures forall id :: KnownUser(SortBy(us, UserKey), id) <==> KnownUser(us, id)
  {
    SortElements(us, UserKey);
    SortDistinct(us, UserKey, UserID);
    SortDistinct(us, UserKey, UserNormalized);
  }

  lemma CanonicalItemValid(item: ShareItem, us: seq<User>)
    ensures ValidPermissions(CanonicalItem(item), SortBy(us, UserKey)) <==> ValidPermissions(item, us)
  {
    CanonicalUsersValid(us);
    SortElements(item.permissions, PermissionKey);
    SortDistinct(item.permissions, PermissionKey, PermissionUser);
  }

  lemma CanonicalSharesValid(x: State)
    ensures ValidShares(Canonical(x).shares) <==> ValidShares(x.shares)
    ensures ValidAccess(Canonical(x).shares, Canonical(x).users) <==> ValidAccess(x.shares, x.users)
  {
    var items := x.shares;
    var qs := Map(CanonicalItem, items);
    SortedMapElements(items, CanonicalItem, ItemKey);
    SortDistinct(qs, ItemKey, ItemID);
    SortDistinct(qs, ItemKey, ItemSlug);
    MapDistinct(items, CanonicalItem, ItemID, ItemID);
    MapDistinct(items, CanonicalItem, ItemSlug, ItemSlug);
    forall item ensures CanonicalItem(item).share == item.share
      && (ValidPermissions(CanonicalItem(item), Canonical(x).users) <==> ValidPermissions(item, x.users)) {
      CanonicalItemValid(item, x.users);
    }
  }

  /** Putting a state in canonical order changes nothing about its validity. */
  lemma CanonicalValid(x: State)
    ensures Valid(Canonical(x)) <==> Valid(x)
  {
    CanonicalProvidersValid(x.providers);
    CanonicalUsersValid(x.users);
    CanonicalSharesValid(x);
  }

  lemma CanonicalProviderTwice(p: Provider)
    requires Distinct(p.zones, TextKey)
    ensures CanonicalProvider(CanonicalProvider(p)) == CanonicalProvider(p)
  {
    SortAscending(p.zones, TextKey);
    SortIdempotent(SortBy(p.zones, TextKey), TextKey);
  }

  lemma CanonicalItemTwice(item: ShareItem)
    requires Distinct(item.permissions, PermissionUser)
    ensures CanonicalItem(CanonicalItem(item)) == CanonicalItem(item)
  {
    assert Distinct(item.permissions, PermissionKey);
    SortAscending(item.permissions, PermissionKey);
    SortIdempotent(SortBy(item.permissions, PermissionKey), PermissionKey);
  }

  lemma CanonicalIdempotent(x: State)
    requires Valid(x)
    ensures Canonical(Canonical(x)) == Canonical(x)
  {
    var c := Canonical(x);
    forall p | p in c.providers ensures CanonicalProvider(p) == p {
      SortedMapElements(x.providers, CanonicalProvider, ProviderKey);
      var q :| q in x.providers && CanonicalProvider(q) == p;
      assert q.Valid();
      CanonicalProviderTwice(q);
    }
    forall item | item in c.shares ensures CanonicalItem(item) == item {
      SortedMapElements(x.shares, CanonicalItem, ItemKey);
      var q :| q in x.shares && CanonicalItem(q) == item;
      assert ValidPermissions(q, x.users);
      CanonicalItemTwice(q);
    }
    CanonicalAscending(x);
    AlreadyCanonical(c);
  }

  lemma AlreadyCanonical(c: State)
    requires forall p :: p in c.providers ==> CanonicalProvider(p) == p
    requires forall item :: item in c.shares ==> CanonicalItem(item) == item
    requires Ascending(c.providers, ProviderKey) && Ascending(c.users, UserKey) && Ascending(c.shares, ItemKey)
    ensures Canonical(c) == c
  {
    assert Map(CanonicalProvider, c.providers) == c.providers;
    assert Map(CanonicalItem, c.shares) == c.shares;
    SortIdempotent(c.providers, ProviderKey);
    SortIdempotent(c.users, UserKey);
    SortIdempotent(c.shares, ItemKey);
  }

  lemma CanonicalAscending(x: State)
    requires Valid(x)
    ensures Ascending(Canonical(x).providers, ProviderKey)
    ensures Ascending(Canonical(x).users, UserKey)
    ensures Ascending(Canonical(x).shares, ItemKey)
  {
    MapDistinct(x.providers, CanonicalProvider, ProviderID, ProviderID);
    MapDistinct(x.shares, CanonicalItem, ItemID, ItemID);
    SortAscending(Map(CanonicalProvider, x.providers), ProviderKey);
    SortAscending(x.users, UserKey);
    SortAscending(Map(CanonicalItem, x.shares), ItemKey);
  }

  /** What apply stores, restore can read back: a state marshals exactly when it is valid, parsing
      the body gives its canonical form, and that form marshals to the same body. */
  lemma MarshalRoundTrip(x: State)
    ensures Marshaled(x).Success? <==> Valid(x)
    ensures Valid(x) ==>
              && Parsed(Marshaled(x).value) == Success(Canonical(x))
              && Valid(Canonical(x))
              && Marshaled(Canonical(x)) == Marshaled(x)
  {
    CanonicalValid(x);
    if Valid(x) { CanonicalIdempotent(x); }
  }
}
