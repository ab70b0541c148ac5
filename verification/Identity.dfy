/** The identity of a desired state: what decides whether two states are the same revision. */
module Identity {
  import opened Ordering
  import opened Domain
  import opened Snapshot

  // The stored rows without their timestamps.
  datatype SettingsCore = SettingsCore(id: ID, publicBasePath: string, httpPort: int, httpsPort: int, mode: RuntimeMode)
  datatype TLSCore = TLSCore(id: ID, mode: TLSMode, hostname: string, challenge: Challenge, providerID: Option<ID>,
                             certificatePath: string, privateKeyPath: string)
  datatype ProviderCore = ProviderCore(id: ID, name: string, kind: ProviderType, zones: seq<string>)
  datatype UserCore = UserCore(id: ID, username: string, normalized: string, passwordHash: string, enabled: bool)
  datatype GrantCore = GrantCore(shareID: ID, userID: ID, permission: Permission)
  datatype ShareCore = ShareCore(id: ID, name: string, slug: string, path: string, enabled: bool, grants: seq<GrantCore>)

  datatype RevisionIdentity = RevisionIdentity(
    version: int, settings: SettingsCore, tls: Option<TLSCore>,
    providers: seq<ProviderCore>, users: seq<UserCore>, shares: seq<ShareCore>)

  /** A SHA-256 digest; a constructor is injective, as the program relies on the hash to be. */
  datatype Digest<+T> = Sha256(body: T)

  type StateHash = Digest<RevisionIdentity>

  function SettingsCoreOf(s: ServerSettings): SettingsCore {
    SettingsCore(s.id, s.publicBasePath, s.httpPort, s.httpsPort, s.runtimeMode)
  }

  function TLSCoreOf(p: TLSProfile): TLSCore {
    TLSCore(p.id, p.mode, p.hostname, EffectiveChallenge(p.challenge), p.providerID, p.certificatePath, p.privateKeyPath)
  }

  function OptionalTLSCore(tls: Option<TLSProfile>): Option<TLSCore> {
    if tls.Some? then Some(TLSCoreOf(tls.value)) else None
  }

  function ProviderCoreOf(p: Provider): ProviderCore { ProviderCore(p.id, p.name, p.kind, p.zones) }
  function UserCoreOf(u: User): UserCore { UserCore(u.id, u.username, u.normalized, u.passwordHash, u.enabled) }
  function GrantCoreOf(p: SharePermission): GrantCore { GrantCore(p.shareID, p.userID, p.permission) }
  predicate IsGrant(p: SharePermission) { p.permission != NoAccess }

  function ShareCoreOf(item: ShareItem): ShareCore {
    var s := item.share;
    ShareCore(s.id, s.name, s.slug, s.path, s.enabled, Map(GrantCoreOf, Filter(IsGrant, item.permissions)))
  }

  function IdentityOfSnapshot(s: ConfigRevisionSnapshot): RevisionIdentity {
    RevisionIdentity(s.version, SettingsCoreOf(s.state.settings), OptionalTLSCore(s.state.tls),
                     Map(ProviderCoreOf, s.state.providers), Map(UserCoreOf, s.state.users), Map(ShareCoreOf, s.state.shares))
  }

  function IdentityOf(x: State): RevisionIdentity {
    IdentityOfSnapshot(ConfigRevisionSnapshot(SNAPSHOT_VERSION, Canonical(x)))
  }

  method RevisionStateIdentity(s: ConfigRevisionSnapshot) returns (r: RevisionIdentity)
    ensures r == IdentityOfSnapshot(s)
  {
    var x := s.state;
    var tls := None;
    if x.tls.Some? {
      var p := x.tls.value;
      var challenge := p.challenge;
      if challenge.Blank? { challenge := Auto; }
      tls := Some(TLSCore(p.id, p.mode, p.hostname, challenge, p.providerID, p.certificatePath, p.privateKeyPath));
    }
    var providers: seq<ProviderCore> := [];
    for i := 0 to |x.providers|
      invariant providers == Map(ProviderCoreOf, x.providers)[..i]
    {
      var p := x.providers[i];
      providers := providers + [ProviderCore(p.id, p.name, p.kind, p.zones)];
    }
    var users: seq<UserCore> := [];
    for i := 0 to |x.users|
      invariant users == Map(UserCoreOf, x.users)[..i]
    {
      var u := x.users[i];
      users := users + [UserCore(u.id, u.username, u.normalized, u.passwordHash, u.enabled)];
    }
    var shares: seq<ShareCore> := [];
    for i := 0 to |x.shares|
      invariant shares == Map(ShareCoreOf, x.shares)[..i]
    {
      var share, permissions := x.shares[i].share, x.shares[i].permissions;
      var grants: seq<GrantCore> := [];
      for k := 0 to |permissions|
        invariant grants == Map(GrantCoreOf, Filter(IsGrant, permissions[..k]))
      {
        assert permissions[..k + 1][..k] == permissions[..k];
        var p := permissions[k];
        if p.permission == NoAccess { continue; }
        grants := grants + [GrantCore(p.shareID, p.userID, p.permission)];
      }
      assert permissions[..|permissions|] == permissions;
      shares := shares + [ShareCore(share.id, share.name, share.slug, share.path, share.enabled, grants)];
    }
    return RevisionIdentity(s.version, SettingsCoreOf(x.settings), tls, providers, users, shares);
  }

  ghost function StateHashed(x: State): Result<StateHash> {
    if Valid(Canonical(x)) then Success(Sha256(IdentityOf(x))) else Failure
  }

  /** HashConfigRevisionState. */
  method HashState(x: State) returns (r: Result<StateHash>)
    ensures r == StateHashed(x)
  {
    var snapshot := NewConfigRevisionSnapshot(x);
    var ok := Validate(snapshot.state);
    if !ok { return Failure; }
    var identity := RevisionStateIdentity(snapshot);
    return Success(Sha256(identity));
  }

  // ----- what a state says, free of order, timestamps and NONE rows ---------------

  datatype ProviderFacts = ProviderFacts(id: ID, name: string, kind: ProviderType, zones: set<string>)
  datatype ShareFacts = ShareFacts(id: ID, name: string, slug: string, path: string, enabled: bool, grants: set<GrantCore>)

  datatype StateFacts = StateFacts(
    settings: SettingsCore, tls: Option<TLSCore>,
    providers: set<ProviderFacts>, users: set<UserCore>, shares: set<ShareFacts>)

  ghost function FactsOfProvider(p: Provider): ProviderFacts { ProviderFacts(p.id, p.name, p.kind, Elements(p.zones)) }

  ghost function FactsOfItem(item: ShareItem): ShareFacts {
    var s := item.share;
    ShareFacts(s.id, s.name, s.slug, s.path, s.enabled,
               set p | p in item.permissions && IsGrant(p) :: GrantCoreOf(p))
  }

  ghost function Facts(x: State): StateFacts {
    StateFacts(SettingsCoreOf(x.settings), OptionalTLSCore(x.tls),
               Image(FactsOfProvider, x.providers), Image(UserCoreOf, x.users), Image(FactsOfItem, x.shares))
  }

  // Reading the facts back from the identity.
  ghost function ProviderCoreFacts(c: ProviderCore): ProviderFacts { ProviderFacts(c.id, c.name, c.kind, Elements(c.zones)) }
  ghost function ShareCoreFacts(c: ShareCore): ShareFacts {
    ShareFacts(c.id, c.name, c.slug, c.path, c.enabled, Elements(c.grants))
  }

  lemma CanonicalItemFacts(item: ShareItem)
    ensures ShareCoreFacts(ShareCoreOf(CanonicalItem(item))) == FactsOfItem(item)
  {
    SortElements(item.permissions, PermissionKey);
    var sorted := SortBy(item.permissions, PermissionKey);
    var grants := ShareCoreOf(CanonicalItem(item)).grants;
    var kept := Filter(IsGrant, sorted);
    forall g ensures g in Elements(grants) <==> g in FactsOfItem(item).grants {
      if g in grants {
        var i :| 0 <= i < |grants| && grants[i] == g;
        assert kept[i] in kept;
      }
      if g in FactsOfItem(item).grants {
        var p :| p in item.permissions && IsGrant(p) && GrantCoreOf(p) == g;
        assert p in kept;
        var i :| 0 <= i < |kept| && kept[i] == p;
        assert grants[i] == g;
      }
    }
  }

  lemma CanonicalProviderFacts(p: Provider)
    ensures ProviderCoreFacts(ProviderCoreOf(CanonicalProvider(p))) == FactsOfProvider(p)
  {
    SortElements(p.zones, TextKey);
  }

  /** The identity determines the facts. */
  lemma IdentityFacts(x: State)
    ensures Image(ProviderCoreFacts, IdentityOf(x).providers) == Facts(x).providers
    ensures Elements(IdentityOf(x).users) == Facts(x).users
    ensures Image(ShareCoreFacts, IdentityOf(x).shares) == Facts(x).shares
  {
    var c, id := Canonical(x), IdentityOf(x);
    SortElements(x.users, UserKey);
    SortedMapElements(x.providers, CanonicalProvider, ProviderKey);
    SortedMapElements(x.shares, CanonicalItem, ItemKey);
    MapElements(c.users, UserCoreOf);
    MapElements(c.providers, ProviderCoreOf);
    MapElements(c.shares, ShareCoreOf);
    forall p | p in x.providers
      ensures ProviderCoreOf(CanonicalProvider(p)) in id.providers
      ensures ProviderCoreFacts(ProviderCoreOf(CanonicalProvider(p))) == FactsOfProvider(p)
    {
      CanonicalProviderFacts(p);
    }
    forall item | item in x.shares
      ensures ShareCoreOf(CanonicalItem(item)) in id.shares
      ensures ShareCoreFacts(ShareCoreOf(CanonicalItem(item))) == FactsOfItem(item)
    {
      CanonicalItemFacts(item);
    }
  }

  lemma MapElements<T(!new), U(!new)>(s: seq<T>, f: T -> U)
    ensures forall x :: x in s ==> f(x) in Map(f, s)
    ensures forall y :: y in Map(f, s) ==> exists x :: x in s && f(x) == y
  {
  }

  // ----- the facts determine the identity -----------------------------------------------

  function ProviderCoreKey(c: ProviderCore): Key { Key(c.name, c.id) }
  function UserCoreKey(c: UserCore): Key { Key(c.normalized, c.id) }
  function GrantCoreKey(c: GrantCore): Key { Key(c.userID, "") }
  function ShareCoreKey(c: ShareCore): Key { Key(c.slug, c.id) }

  ghost predicate Ordered(id: RevisionIdentity) {
    && Ascending(id.providers, ProviderCoreKey) && Ascending(id.users, UserCoreKey) && Ascending(id.shares, ShareCoreKey)
    && (forall c :: c in id.providers ==> Ascending(c.zones, TextKey))
    && (forall c :: c in id.shares ==> Ascending(c.grants, GrantCoreKey))
  }

  lemma ProviderZonesOrdered(x: State, core: ProviderCore)
    requires Valid(x) && core in IdentityOf(x).providers
    ensures Ascending(core.zones, TextKey)
  {
    MapElements(Canonical(x).providers, ProviderCoreOf);
    SortedMapElements(x.providers, CanonicalProvider, ProviderKey);
    var q :| q in Canonical(x).providers && ProviderCoreOf(q) == core;
    var p :| p in x.providers && CanonicalProvider(p) == q;
    assert Distinct(p.zones, TextKey);
    SortAscending(p.zones, TextKey);
  }

  lemma ItemGrantsOrdered(item: ShareItem)
    requires Distinct(item.permissions, PermissionUser)
    ensures Ascending(ShareCoreOf(CanonicalItem(item)).grants, GrantCoreKey)
  {
    var sorted := SortBy(item.permissions, PermissionKey);
    assert Distinct(item.permissions, PermissionKey);
    SortAscending(item.permissions, PermissionKey);
    FilterAscending(IsGrant, sorted, PermissionKey);
    MapAscending(Filter(IsGrant, sorted), PermissionKey, GrantCoreOf, GrantCoreKey);
  }

  lemma ShareGrantsOrdered(x: State, core: ShareCore)
    requires ValidAccess(x.shares, x.users) && core in IdentityOf(x).shares
    ensures Ascending(core.grants, GrantCoreKey)
  {
    MapElements(Canonical(x).shares, ShareCoreOf);
    SortedMapElements(x.shares, CanonicalItem, ItemKey);
    var q :| q in Canonical(x).shares && ShareCoreOf(q) == core;
    var item :| item in x.shares && CanonicalItem(item) == q;
    assert ValidPermissions(item, x.users);
    ItemGrantsOrdered(item);
  }

  lemma IdentityOrdered(x: State)
    requires Valid(x)
    ensures Ordered(IdentityOf(x))
  {
    var c := Canonical(x);
    CanonicalAscending(x);
    MapAscending(c.providers, ProviderKey, ProviderCoreOf, ProviderCoreKey);
    MapAscending(c.users, UserKey, UserCoreOf, UserCoreKey);
    MapAscending(c.shares, ItemKey, ShareCoreOf, ShareCoreKey);
    forall core | core in IdentityOf(x).providers ensures Ascending(core.zones, TextKey) {
      ProviderZonesOrdered(x, core);
    }
    forall core | core in IdentityOf(x).shares ensures Ascending(core.grants, GrantCoreKey) {
      ShareGrantsOrdered(x, core);
    }
  }

  lemma SameProviders(a: seq<ProviderCore>, b: seq<ProviderCore>)
    requires Ascending(a, ProviderCoreKey) && Ascending(b, ProviderCoreKey)
    requires forall c :: c in a || c in b ==> Ascending(c.zones, TextKey)
    requires Image(ProviderCoreFacts, a) == Image(ProviderCoreFacts, b)
    ensures a == b
  {
    forall c, d | (c in a || c in b) && (d in a || d in b) && ProviderCoreFacts(c) == ProviderCoreFacts(d) ensures c == d {
      AscendingUnique(c.zones, d.zones, TextKey);
    }
    SameElements(a, b, ProviderCoreFacts);
    AscendingUnique(a, b, ProviderCoreKey);
  }

  lemma SameShares(a: seq<ShareCore>, b: seq<ShareCore>)
    requires Ascending(a, ShareCoreKey) && Ascending(b, ShareCoreKey)
    requires forall c :: c in a || c in b ==> Ascending(c.grants, GrantCoreKey)
    requires Image(ShareCoreFacts, a) == Image(ShareCoreFacts, b)
    ensures a == b
  {
    forall c, d | (c in a || c in b) && (d in a || d in b) && ShareCoreFacts(c) == ShareCoreFacts(d) ensures c == d {
      AscendingUnique(c.grants, d.grants, GrantCoreKey);
    }
    SameElements(a, b, ShareCoreFacts);
    AscendingUnique(a, b, ShareCoreKey);
  }

  lemma SameElements<T(!new), U(!new)>(a: seq<T>, b: seq<T>, f: T -> U)
    requires forall c, d :: (c in a || c in b) && (d in a || d in b) && f(c) == f(d) ==> c == d
    requires Image(f, a) == Image(f, b)
    ensures Elements(a) == Elements(b)
  {
  }

  /** Two valid states have the same identity, hence the same state hash, exactly when they differ
      only in list order, timestamps, NONE rows and blank-versus-auto challenge. */
  lemma IdentityExact(x: State, y: State)
    requires Valid(x) && Valid(y)
    ensures IdentityOf(x) == IdentityOf(y) <==> Facts(x) == Facts(y)
    ensures StateHashed(x) == StateHashed(y) <==> Facts(x) == Facts(y)
  {
    CanonicalValid(x);
    CanonicalValid(y);
    IdentityFacts(x);
    IdentityFacts(y);
    if Facts(x) == Facts(y) {
      IdentityOrdered(x);
      IdentityOrdered(y);
      var a, b := IdentityOf(x), IdentityOf(y);
      AscendingUnique(a.users, b.users, UserCoreKey);
      SameProviders(a.providers, b.providers);
      SameShares(a.shares, b.shares);
    }
  }

  /** The canonical form says the same as the state. */
  lemma CanonicalFacts(x: State)
    requires Valid(x)
    ensures Facts(Canonical(x)) == Facts(x)
    ensures IdentityOf(Canonical(x)) == IdentityOf(x)
  {
    CanonicalValid(x);
    CanonicalIdempotent(x);
    IdentityExact(x, Canonical(x));
  }
}
