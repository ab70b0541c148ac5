/** The compiler sees nothing but the identity of a state: equal identities compile to equal
    configurations, order is invisible, and stored snapshots recompile to what was stored. */
module ConfigIdentity {
  import opened Ordering
  import opened Domain
  import opened Snapshot
  import opened Identity
  import opened CaddyConfig
  import opened CompilerSpec
  import opened Compiler
  import Registry

  // ----- totality ------------------------------------------------------------------------

  /** What Validate checks and Compile does not. */
  ghost predicate UncheckedByCompile(x: State) {
    && Distinct(x.providers, ProviderName)
    && forall item :: item in x.shares && !item.share.enabled ==> ValidPermissions(item, x.users)
  }

  lemma AdapterExists(p: Provider)
    requires p.Valid()
    ensures Registry.For(p.kind).Some?
  {
  }

  /** Every valid state compiles, and the two checks differ in two places only: provider names,
      and the permissions of disabled shares. */
  lemma ValidIffCompilable(x: State)
    ensures Valid(x) <==> Compilable(x) && UncheckedByCompile(x)
  {
  }

  // ----- every ingredient of the configuration is a function of the facts ----------------------

  ghost predicate CoreGrants(u: UserCore, g: GrantCore, write: bool) {
    g.userID == u.id && u.enabled && if write then g.permission.ReadWrite? else g.permission != NoAccess
  }

  ghost function FactGrants(us: set<UserCore>, f: ShareFacts, write: bool): set<Account> {
    set u, g | u in us && g in f.grants && CoreGrants(u, g, write) :: Account(u.username, u.passwordHash)
  }

  lemma GrantsFromFacts(us: seq<User>, item: ShareItem, write: bool)
    ensures GrantSet(us, item.permissions, write) == FactGrants(Image(UserCoreOf, us), FactsOfItem(item), write)
  {
    var left, right := GrantSet(us, item.permissions, write), FactGrants(Image(UserCoreOf, us), FactsOfItem(item), write);
    forall a | a in left ensures a in right {
      var u, p :| u in us && p in item.permissions && Grants(u, p, write) && AccountOf(u) == a;
      assert CoreGrants(UserCoreOf(u), GrantCoreOf(p), write);
      assert GrantCoreOf(p) in FactsOfItem(item).grants;
    }
    forall a | a in right ensures a in left {
      var c, g :| c in Image(UserCoreOf, us) && g in FactsOfItem(item).grants && CoreGrants(c, g, write)
        && Account(c.username, c.passwordHash) == a;
      var u :| u in us && UserCoreOf(u) == c;
      var p :| p in item.permissions && IsGrant(p) && GrantCoreOf(p) == g;
      assert Grants(u, p, write);
    }
  }

  ghost function FactReaders(us: set<UserCore>, fs: set<ShareFacts>): set<Account> {
    set f, a | f in fs && f.enabled && a in FactGrants(us, f, false) :: a
  }

  ghost predicate FactReads(us: set<UserCore>, f: ShareFacts, name: string) {
    f.enabled && exists a :: a in FactGrants(us, f, false) && a.username == name
  }

  ghost function FactEntries(us: set<UserCore>, fs: set<ShareFacts>, name: string): set<Entry> {
    set f | f in fs && FactReads(us, f, name) :: Entry(f.slug, f.name)
  }

  lemma ReadersFromFacts(us: seq<User>, items: seq<ShareItem>)
    ensures DiscoverySet(us, items) == FactReaders(Image(UserCoreOf, us), Image(FactsOfItem, items))
  {
    hide GrantSet;
    hide FactGrants;
    var cores, facts := Image(UserCoreOf, us), Image(FactsOfItem, items);
    forall item: ShareItem ensures GrantSet(us, item.permissions, false) == FactGrants(cores, FactsOfItem(item), false) {
      GrantsFromFacts(us, item, false);
    }
    forall a | a in DiscoverySet(us, items) ensures a in FactReaders(cores, facts) {
      var item :| item in items && item.share.enabled && a in GrantSet(us, item.permissions, false);
      assert FactsOfItem(item) in facts;
    }
    forall a | a in FactReaders(cores, facts) ensures a in DiscoverySet(us, items) {
      var f :| f in facts && f.enabled && a in FactGrants(cores, f, false);
      var item :| item in items && FactsOfItem(item) == f;
    }
  }

  lemma EntriesFromFacts(us: seq<User>, items: seq<ShareItem>, name: string)
    ensures EntrySet(us, items, name) == FactEntries(Image(UserCoreOf, us), Image(FactsOfItem, items), name)
  {
    hide GrantSet;
    hide FactGrants;
    var cores, facts := Image(UserCoreOf, us), Image(FactsOfItem, items);
    forall item: ShareItem ensures Reads(us, item, name) <==> FactReads(cores, FactsOfItem(item), name) {
      GrantsFromFacts(us, item, false);
    }
    hide Reads;
    hide FactReads;
    forall e | e in EntrySet(us, items, name) ensures e in FactEntries(cores, facts, name) {
      var item :| item in items && Reads(us, item, name) && EntryOf(item) == e;
      assert FactsOfItem(item) in facts;
    }
    forall e | e in FactEntries(cores, facts, name) ensures e in EntrySet(us, items, name) {
      var f :| f in facts && FactReads(cores, f, name) && Entry(f.slug, f.name) == e;
      var item :| item in items && FactsOfItem(item) == f;
    }
  }

  lemma AccountsFromFacts(us: seq<User>, vs: seq<User>, i: ShareItem, j: ShareItem, write: bool)
    requires Image(UserCoreOf, us) == Image(UserCoreOf, vs) && FactsOfItem(i) == FactsOfItem(j)
    ensures AccountsFor(us, i, write) == AccountsFor(vs, j, write)
  {
    GrantsFromFacts(us, i, write);
    GrantsFromFacts(vs, j, write);
  }

  // ----- routes ------------------------------------------------------------------------------------

  function FactsKey(f: ShareFacts): Key { Key(f.slug, f.id) }

  ghost function FactList(items: seq<ShareItem>): seq<ShareFacts> { Map(FactsOfItem, items) }

  lemma SortedFacts(a: seq<ShareItem>, b: seq<ShareItem>)
    requires Distinct(a, ItemID) && Distinct(b, ItemID) && Image(FactsOfItem, a) == Image(FactsOfItem, b)
    ensures FactList(SortBy(a, ItemKey)) == FactList(SortBy(b, ItemKey))
  {
    SortedFactsAscend(a);
    SortedFactsAscend(b);
    AscendingUnique(FactList(SortBy(a, ItemKey)), FactList(SortBy(b, ItemKey)), FactsKey);
  }

  lemma SortedFactsAscend(a: seq<ShareItem>)
    requires Distinct(a, ItemID)
    ensures Ascending(FactList(SortBy(a, ItemKey)), FactsKey)
    ensures Elements(FactList(SortBy(a, ItemKey))) == Image(FactsOfItem, a)
  {
    assert Distinct(a, ItemKey);
    SortAscending(a, ItemKey);
    SortElements(a, ItemKey);
    MapAscending(SortBy(a, ItemKey), ItemKey, FactsOfItem, FactsKey);
    MapElements(SortBy(a, ItemKey), FactsOfItem);
  }

  /** The parts of a state outside the lists that routes depend on. */
  ghost predicate SameFrame(x: State, y: State) {
    && x.settings.publicBasePath == y.settings.publicBasePath && Hostname(x) == Hostname(y)
    && Image(UserCoreOf, x.users) == Image(UserCoreOf, y.users)
  }

  lemma {:induction false} RoutesFromFacts(x: State, y: State, a: seq<ShareItem>, b: seq<ShareItem>)
    requires SameFrame(x, y) && FactList(a) == FactList(b)
    ensures ShareRoutes(x, a) == ShareRoutes(y, b) && Warnings(x, a) == Warnings(y, b)
  {
    if |a| > 0 {
      var n := |a| - 1;
      assert |a| == |FactList(a)| == |FactList(b)| == |b|;
      assert FactList(a[..n]) == FactList(a)[..n] && FactList(b[..n]) == FactList(b)[..n];
      RoutesFromFacts(x, y, a[..n], b[..n]);
      assert FactList(a)[n] == FactsOfItem(a[n]) && FactList(b)[n] == FactsOfItem(b[n]);
      AccountsFromFacts(x.users, y.users, a[n], b[n], false);
      AccountsFromFacts(x.users, y.users, a[n], b[n], true);
    }
  }

  lemma IndexFromFacts(x: State, y: State)
    requires SameFrame(x, y) && Image(FactsOfItem, x.shares) == Image(FactsOfItem, y.shares)
    ensures IndexRoutes(x) == IndexRoutes(y)
  {
    hide DiscoverySet;
    hide EntrySet;
    ReadersFromFacts(x.users, x.shares);
    ReadersFromFacts(y.users, y.shares);
    forall n ensures EntrySet(x.users, x.shares, n) == EntrySet(y.users, y.shares, n) {
      EntriesFromFacts(x.users, x.shares, n);
      EntriesFromFacts(y.users, y.shares, n);
    }
    assert EntriesFor(x.users, x.shares) == EntriesFor(y.users, y.shares);
  }

  // ----- TLS -----------------------------------------------------------------------------------------

  lemma KindFromFacts(ps: seq<Provider>, qs: seq<Provider>, id: ID)
    requires Distinct(ps, ProviderID) && Distinct(qs, ProviderID) && KnownProvider(ps, id)
    requires Image(FactsOfProvider, ps) <= Image(FactsOfProvider, qs)
    ensures KnownProvider(qs, id) && KindOf(ps, id) == KindOf(qs, id)
  {
  }

  /** The TLS block depends on the profile and on the providers of x only; y may hold more. */
  lemma TLSFromFacts(x: State, y: State)
    requires TLSCompiles(x) && TLSCompiles(y) && OptionalTLSCore(x.tls) == OptionalTLSCore(y.tls)
    requires Distinct(x.providers, ProviderID) && Distinct(y.providers, ProviderID)
    requires Image(FactsOfProvider, x.providers) <= Image(FactsOfProvider, y.providers)
    ensures CompiledTLS(x) == CompiledTLS(y) && Policies(x) == Policies(y)
    ensures RedirectServer(x) == RedirectServer(y.(settings := x.settings)) && FallbackRoutes(x) == FallbackRoutes(y)
  {
    hide TLSProfile.Valid;
    hide IsIPv4;
    if NeededProvider(x.tls).Some? {
      assert NeededProvider(x.tls) == NeededProvider(y.tls);
      KindFromFacts(x.providers, y.providers, NeededProvider(x.tls).value);
    } else {
      assert NeededProvider(y.tls).None?;
    }
  }

  // ----- the theorems -----------------------------------------------------------------------------------

  /** y says what x says, apart from DNS providers that only y has. */
  ghost predicate SaysTheSame(x: State, y: State) {
    var f, g := Facts(x), Facts(y);
    f.settings == g.settings && f.tls == g.tls && f.users == g.users && f.shares == g.shares && f.providers <= g.providers
  }

  /** Compilation does not see order, timestamps, NONE rows, a blank challenge, or unused providers. */
  lemma SameFactsSameConfig(x: State, y: State)
    requires Compilable(x) && Compilable(y) && SaysTheSame(x, y)
    ensures Compiled(x) == Compiled(y)
  {
    hide ServerSettings.Valid;
    hide ValidUsers;
    hide Provider.Valid;
    hide TLSProfile.Valid;
    hide ValidPermissions;
    hide IndexRoutes;
    hide ShareRoutes;
    hide Warnings;
    hide SortBy;
    assert SameFrame(x, y);
    IndexFromFacts(x, y);
    SortedFacts(x.shares, y.shares);
    RoutesFromFacts(x, y, SortBy(x.shares, ItemKey), SortBy(y.shares, ItemKey));
    TLSFromFacts(x, y);
  }

  /** Identity decides the configuration. */
  lemma SameIdentitySameConfig(x: State, y: State)
    requires Valid(x) && Valid(y) && StateHashed(x) == StateHashed(y)
    ensures Compilable(x) && Compilable(y) && Compiled(x) == Compiled(y)
  {
    IdentityExact(x, y);
    ValidIffCompilable(x);
    ValidIffCompilable(y);
    SameFactsSameConfig(x, y);
  }

  /** Restore can re-verify what apply stored: the snapshot parses to a state that marshals to the same
      body, hashes to the same identity and compiles to the same configuration. */
  lemma StoredStateRecompiles(x: State)
    requires Valid(x)
    ensures Marshaled(x).Success? && Parsed(Marshaled(x).value).Success?
    ensures var restored := Parsed(Marshaled(x).value).value;
            && Marshaled(restored) == Marshaled(x) && StateHashed(restored) == StateHashed(x)
            && Compilable(x) && Compilable(restored) && Compiled(restored) == Compiled(x)
  {
    MarshalRoundTrip(x);
    CanonicalFacts(x);
    IdentityExact(x, Canonical(x));
    SameIdentitySameConfig(x, Canonical(x));
  }

  /** y lists the same rows as x in another order. */
  ghost predicate Reordered(x: State, y: State) {
    && x.settings == y.settings && x.tls == y.tls
    && multiset(Map(CanonicalProvider, x.providers)) == multiset(Map(CanonicalProvider, y.providers))
    && multiset(x.users) == multiset(y.users)
    && multiset(Map(CanonicalItem, x.shares)) == multiset(Map(CanonicalItem, y.shares))
  }

  lemma ReorderedMembers<T(!new), U(!new)>(a: seq<T>, b: seq<T>, f: T -> U)
    requires multiset(Map(f, a)) == multiset(Map(f, b))
    ensures forall x :: x in b ==> exists w :: w in a && f(w) == f(x)
  {
    forall x | x in b ensures exists w :: w in a && f(w) == f(x) {
      MapElements(b, f);
      assert f(x) in multiset(Map(f, b));
      assert f(x) in Map(f, a);
      MapElements(a, f);
    }
  }

  lemma ReorderedDistinct<T, U, K>(a: seq<T>, b: seq<T>, f: T -> U, k: T -> K, h: U -> K)
    requires multiset(Map(f, a)) == multiset(Map(f, b)) && Distinct(a, k)
    requires forall x :: h(f(x)) == k(x)
    ensures Distinct(b, k)
  {
    MapDistinct(a, f, k, h);
    DistinctPermutation(Map(f, a), Map(f, b), h);
    MapDistinct(b, f, k, h);
  }

  lemma ReorderedProviders(x: State, y: State)
    requires multiset(Map(CanonicalProvider, x.providers)) == multiset(Map(CanonicalProvider, y.providers))
    requires (forall p :: p in x.providers ==> p.Valid()) && Distinct(x.providers, ProviderID)
    ensures (forall p :: p in y.providers ==> p.Valid()) && Distinct(y.providers, ProviderID)
    ensures Image(FactsOfProvider, x.providers) >= Image(FactsOfProvider, y.providers)
  {
    hide Provider.Valid;
    ReorderedMembers(x.providers, y.providers, CanonicalProvider);
    ReorderedDistinct(x.providers, y.providers, CanonicalProvider, ProviderID, ProviderID);
    forall q | q in y.providers ensures q.Valid() && FactsOfProvider(q) in Image(FactsOfProvider, x.providers) {
      var p :| p in x.providers && CanonicalProvider(p) == CanonicalProvider(q);
      CanonicalProviderValid(p);
      CanonicalProviderValid(q);
      CanonicalProviderFacts(p);
      CanonicalProviderFacts(q);
    }
  }

  lemma ReorderedUsers(us: seq<User>, vs: seq<User>)
    requires multiset(us) == multiset(vs) && ValidUsers(us)
    ensures ValidUsers(vs) && Image(UserCoreOf, us) == Image(UserCoreOf, vs)
    ensures forall id :: KnownUser(us, id) <==> KnownUser(vs, id)
  {
    hide User.Valid;
    forall u ensures u in us <==> u in vs {
      assert u in us <==> u in multiset(us);
      assert u in vs <==> u in multiset(vs);
    }
    DistinctPermutation(us, vs, UserID);
    DistinctPermutation(us, vs, UserNormalized);
  }

  lemma SameKnownUsers(item: ShareItem, us: seq<User>, vs: seq<User>)
    requires forall id :: KnownUser(us, id) <==> KnownUser(vs, id)
    ensures ValidPermissions(item, us) <==> ValidPermissions(item, vs)
  {
    hide KnownUser;
    hide SharePermission.Valid;
  }

  lemma ReorderedItem(i: ShareItem, j: ShareItem, us: seq<User>, vs: seq<User>)
    requires CanonicalItem(i) == CanonicalItem(j)
    requires forall id :: KnownUser(us, id) <==> KnownUser(vs, id)
    ensures i.share == j.share && FactsOfItem(i) == FactsOfItem(j)
    ensures ValidPermissions(i, us) <==> ValidPermissions(j, vs)
  {
    hide KnownUser;
    CanonicalItemFacts(i);
    CanonicalItemFacts(j);
    CanonicalItemValid(i, us);
    CanonicalItemValid(j, us);
    SameKnownUsers(j, us, vs);
  }

  lemma ReorderedShares(x: State, y: State)
    requires multiset(Map(CanonicalItem, x.shares)) == multiset(Map(CanonicalItem, y.shares))
    requires forall id :: KnownUser(x.users, id) <==> KnownUser(y.users, id)
    requires ValidShares(x.shares)
    requires forall i :: i in x.shares && i.share.enabled ==> ValidPermissions(i, x.users)
    ensures ValidShares(y.shares)
    ensures forall i :: i in y.shares && i.share.enabled ==> ValidPermissions(i, y.users)
    ensures Image(FactsOfItem, y.shares) <= Image(FactsOfItem, x.shares)
  {
    hide Share.Valid;
    hide ValidPermissions;
    hide KnownUser;
    ReorderedMembers(x.shares, y.shares, CanonicalItem);
    ReorderedDistinct(x.shares, y.shares, CanonicalItem, ItemID, ItemID);
    ReorderedDistinct(x.shares, y.shares, CanonicalItem, ItemSlug, ItemSlug);
    forall j | j in y.shares
      ensures j.share.Valid() && (j.share.enabled ==> ValidPermissions(j, y.users))
      ensures FactsOfItem(j) in Image(FactsOfItem, x.shares)
    {
      var i :| i in x.shares && CanonicalItem(i) == CanonicalItem(j);
      ReorderedItem(i, j, x.users, y.users);
    }
  }

  lemma ReorderedCompilable(x: State, y: State)
    requires Compilable(x) && Reordered(x, y)
    ensures Compilable(y)
    ensures Facts(y).settings == Facts(x).settings && Facts(y).tls == Facts(x).tls && Facts(y).users == Facts(x).users
    ensures Facts(y).shares <= Facts(x).shares && Facts(y).providers <= Facts(x).providers
  {
    hide ServerSettings.Valid;
    hide TLSProfile.Valid;
    hide Provider.Valid;
    hide ValidUsers;
    hide ValidShares;
    hide ValidPermissions;
    hide KnownUser;
    ReorderedProviders(x, y);
    ReorderedUsers(x.users, y.users);
    ReorderedShares(x, y);
    if NeededProvider(x.tls).Some? {
      ReorderedProviders(y, x);
      KindFromFacts(x.providers, y.providers, NeededProvider(x.tls).value);
    }
  }

  /** Order-blindness: any reordering of users, shares, permissions, providers or zones of an accepted
      input is accepted and gives the same routes, TLS block and warnings. */
  lemma OrderBlind(x: State, y: State)
    requires Compilable(x) && Reordered(x, y)
    ensures Compilable(y) && Compiled(y) == Compiled(x)
  {
    ReorderedCompilable(x, y);
    ReorderedCompilable(y, x);
    SameFactsSameConfig(x, y);
  }
}
