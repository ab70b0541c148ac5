/** The compiler from desired state to Caddy configuration, proved against CompilerSpec. */
module Compiler {
  import opened Ordering
  import opened Domain
  import opened Snapshot
  import opened CaddyConfig
  import opened CompilerSpec
  import Identity
  import Registry

  // ----- accounts -----------------------------------------------------------------------------

  /** What the account lists rely on: no two users share an identifier or a name. */
  ghost predicate SoundUsers(us: seq<User>) {
    forall u, v :: u in us && v in us && (u.id == v.id || u.username == v.username) ==> u == v
  }

  lemma ValidUsersSound(us: seq<User>)
    requires ValidUsers(us)
    ensures SoundUsers(us)
  {
  }

  lemma GrantSetKeyed(us: seq<User>, ps: seq<SharePermission>, write: bool)
    requires SoundUsers(us)
    ensures Keyed(GrantSet(us, ps, write), AccountKey)
  {
  }

  /** users indexes us by identifier. */
  ghost predicate UserIndex(users: map<ID, User>, us: seq<User>) {
    && (forall id :: id in users ==> users[id] in us && users[id].id == id)
    && (forall u :: u in us ==> u.id in users)
  }

  lemma GrantSetStep(us: seq<User>, ps: seq<SharePermission>, k: nat, u: User, write: bool)
    requires SoundUsers(us) && k < |ps| && u in us && ps[k].userID == u.id
    ensures GrantSet(us, ps[..k + 1], write) ==
            GrantSet(us, ps[..k], write) + (if Grants(u, ps[k], write) then {AccountOf(u)} else {})
  {
  }

  /** A user whose permission comes later is not yet among the accounts. */
  lemma FreshAccount(us: seq<User>, ps: seq<SharePermission>, k: nat, u: User, write: bool)
    requires SoundUsers(us) && k < |ps| && u in us && ps[k].userID == u.id
    requires forall j :: 0 <= j < k ==> ps[j].userID != u.id
    ensures forall a :: a in GrantSet(us, ps[..k], write) ==> AccountKey(a) != AccountKey(AccountOf(u))
  {
  }

  lemma GrantSetPermutation(us: seq<User>, ps: seq<SharePermission>, qs: seq<SharePermission>, write: bool)
    requires forall p :: p in ps <==> p in qs
    ensures GrantSet(us, ps, write) == GrantSet(us, qs, write)
  {
  }

  /** Appending an account with a new name. */
  lemma AppendAccount(s: seq<Account>, a: Account)
    requires Distinct(s, AccountKey)
    requires forall b :: b in s ==> AccountKey(b) != AccountKey(a)
    ensures Distinct(s + [a], AccountKey)
    ensures Elements(s + [a]) == Elements(s) + {a}
  {
  }

  lemma SortedAccounts(s: seq<Account>, accounts: set<Account>)
    requires Distinct(s, AccountKey) && Elements(s) == accounts
    ensures SortBy(s, AccountKey) == Listed(accounts, AccountKey)
  {
    SortAscending(s, AccountKey);
    SortElements(s, AccountKey);
    ListedUnique(SortBy(s, AccountKey), accounts, AccountKey);
  }

  /** The accounts collected from the first k permissions. */
  ghost predicate Collected(us: seq<User>, ps: seq<SharePermission>, k: nat, accounts: seq<Account>, write: bool)
    requires k <= |ps|
  {
    Elements(accounts) == GrantSet(us, ps[..k], write) && Distinct(accounts, AccountKey)
  }

  lemma CollectStep(us: seq<User>, ps: seq<SharePermission>, k: nat, u: User, accounts: seq<Account>, write: bool)
    requires SoundUsers(us) && k < |ps| && u in us && ps[k].userID == u.id
    requires forall j :: 0 <= j < k ==> ps[j].userID != u.id
    requires Collected(us, ps, k, accounts, write)
    ensures Collected(us, ps, k + 1, if Grants(u, ps[k], write) then accounts + [AccountOf(u)] else accounts, write)
  {
    GrantSetStep(us, ps, k, u, write);
    FreshAccount(us, ps, k, u, write);
    AppendAccount(accounts, AccountOf(u));
  }

  lemma CollectedSorted(us: seq<User>, ps: seq<SharePermission>, item: ShareItem, accounts: seq<Account>, write: bool)
    requires Collected(us, ps, |ps|, accounts, write)
    requires forall p :: p in ps <==> p in item.permissions
    ensures SortBy(accounts, AccountKey) == AccountsFor(us, item, write)
  {
    assert ps[..|ps|] == ps;
    GrantSetPermutation(us, ps, item.permissions, write);
    SortedAccounts(accounts, GrantSet(us, item.permissions, write));
  }

  ghost predicate AcceptablePermission(p: SharePermission, item: ShareItem, us: seq<User>) {
    p.Valid() && p.shareID == item.share.id && KnownUser(us, p.userID)
  }

  lemma SortedPermissions(item: ShareItem, us: seq<User>)
    ensures var ps := SortBy(item.permissions, PermissionKey);
            && (forall p :: p in ps <==> p in item.permissions)
            && (ValidPermissions(item, us) <==>
                (forall j :: 0 <= j < |ps| ==> AcceptablePermission(ps[j], item, us)) && Distinct(ps, PermissionUser))
  {
    hide SharePermission.Valid;
    SortElements(item.permissions, PermissionKey);
    SortDistinct(item.permissions, PermissionKey, PermissionUser);
  }

  method CompileAccounts(item: ShareItem, users: map<ID, User>, ghost us: seq<User>)
    returns (r: Result<(seq<Account>, seq<Account>)>)
    requires SoundUsers(us) && UserIndex(users, us)
    ensures r.Success? <==> ValidPermissions(item, us)
    ensures r.Success? ==> r.value == (AccountsFor(us, item, false), AccountsFor(us, item, true))
  {
    hide SharePermission.Valid;
    hide Collected;
    hide GrantSet;
    hide Seen;
    hide ValidPermissions;
    var ps := SortBy(item.permissions, PermissionKey);
    SortedPermissions(item, us);
    SeenNone(ps, PermissionUser);
    var seen: set<ID> := {};
    var read, write: seq<Account> := [], [];
    NothingCollected(us, ps);
    for k := 0 to |ps|
      invariant Seen(seen, ps, k, PermissionUser)
      invariant forall j :: 0 <= j < k ==> AcceptablePermission(ps[j], item, us)
      invariant Collected(us, ps, k, read, false) && Collected(us, ps, k, write, true)
    {
      var value := ps[k];
      SeenStep(seen, ps, k, PermissionUser);
      if !value.Valid() { return Failure; }
      if value.shareID != item.share.id { return Failure; }
      if value.userID in seen { return Failure; }
      seen := seen + {value.userID};
      if value.userID !in users { return Failure; }
      var user := users[value.userID];
      CollectStep(us, ps, k, user, read, false);
      CollectStep(us, ps, k, user, write, true);
      if !user.enabled || value.permission == NoAccess { continue; }
      var entry := Account(user.username, user.passwordHash);
      read := read + [entry];
      if value.permission == ReadWrite {
        write := write + [entry];
      }
    }
    SeenAll(seen, ps, PermissionUser);
    CollectedSorted(us, ps, item, read, false);
    CollectedSorted(us, ps, item, write, true);
    return Success((SortBy(read, AccountKey), SortBy(write, AccountKey)));
  }

  lemma NothingCollected(us: seq<User>, ps: seq<SharePermission>)
    ensures Collected(us, ps, 0, [], false) && Collected(us, ps, 0, [], true)
  {
  }

  // ----- the lookup tables of Compile -----------------------------------------------------

  ghost predicate ProviderIndex(providers: map<ID, Provider>, ps: seq<Provider>) {
    && (forall id :: id in providers ==> providers[id] in ps && providers[id].id == id)
    && (forall p :: p in ps ==> p.id in providers)
  }

  /** m holds the first i elements of s by identifier, and no identifier came twice. */
  ghost predicate Indexed<T>(m: map<ID, T>, s: seq<T>, i: nat, id: T -> ID)
    requires i <= |s|
  {
    && Seen(m.Keys, s, i, id)
    && (forall k :: k in m ==> m[k] in s && id(m[k]) == k)
  }

  lemma IndexStep<T>(m: map<ID, T>, s: seq<T>, i: nat, id: T -> ID)
    requires i < |s| && Indexed(m, s, i, id)
    ensures id(s[i]) in m ==> !Distinct(s, id)
    ensures id(s[i]) !in m ==> Indexed(m[id(s[i]) := s[i]], s, i + 1, id)
  {
  }

  lemma IndexAll<T>(m: map<ID, T>, s: seq<T>, id: T -> ID)
    requires Indexed(m, s, |s|, id)
    ensures Distinct(s, id)
    ensures forall k :: k in m ==> m[k] in s && id(m[k]) == k
    ensures forall x :: x in s ==> id(x) in m
  {
  }

  method CollectProviders(ps: seq<Provider>) returns (ok: bool, providers: map<ID, Provider>)
    ensures ok <==> (forall p :: p in ps ==> p.Valid()) && Distinct(ps, ProviderID)
    ensures ok ==> ProviderIndex(providers, ps)
  {
    hide Indexed;
    hide Provider.Valid;
    providers := map[];
    assert Indexed(providers, ps, 0, ProviderID) by { NothingIndexed(ps, ProviderID); }
    for i := 0 to |ps|
      invariant Indexed(providers, ps, i, ProviderID)
      invariant forall j :: 0 <= j < i ==> ps[j].Valid()
    {
      var provider := ps[i];
      IndexStep(providers, ps, i, ProviderID);
      if !provider.Valid() || provider.id in providers { return false, providers; }
      providers := providers[provider.id := provider];
    }
    IndexAll(providers, ps, ProviderID);
    return true, providers;
  }

  lemma NothingIndexed<T>(s: seq<T>, id: T -> ID)
    ensures Indexed(map[], s, 0, id)
  {
  }

  method CollectUsers(input: seq<User>) returns (ok: bool, users: map<ID, User>)
    ensures ok <==> ValidUsers(input)
    ensures ok ==> UserIndex(users, input)
  {
    hide Indexed;
    hide Seen;
    hide User.Valid;
    var us := SortBy(input, UserKey);
    SortElements(input, UserKey);
    CanonicalUsersValid(input);
    users := map[];
    var usernames: set<string> := {};
    NothingIndexed(us, UserID);
    SeenNone(us, UserNormalized);
    for i := 0 to |us|
      invariant Indexed(users, us, i, UserID) && Seen(usernames, us, i, UserNormalized)
      invariant forall j :: 0 <= j < i ==> us[j].Valid()
    {
      var user := us[i];
      IndexStep(users, us, i, UserID);
      SeenStep(usernames, us, i, UserNormalized);
      if !user.Valid() || user.id in users || user.normalized in usernames { return false, users; }
      users, usernames := users[user.id := user], usernames + {user.normalized};
    }
    IndexAll(users, us, UserID);
    SeenAll(usernames, us, UserNormalized);
    return true, users;
  }

  lemma KindUnique(ps: seq<Provider>, p: Provider)
    requires Distinct(ps, ProviderID) && p in ps
    ensures KnownProvider(ps, p.id) && KindOf(ps, p.id) == p.kind
  {
  }

  method CompileTLS(x: State, providers: map<ID, Provider>) returns (r: Result<(Option<TLSApp>, seq<ConnectionPolicy>)>)
    requires x.tls.Some? && x.tls.value.Valid()
    requires ProviderIndex(providers, x.providers) && Distinct(x.providers, ProviderID)
    ensures r.Success? <==> TLSCompiles(x)
    ensures r.Success? ==> r.value == (CompiledTLS(x), Policies(x))
  {
    var profile := x.tls.value;
    match profile.mode {
      case Internal => return Success((Some(InternalIssuer(profile.hostname)), []));
      case Custom =>
        var sni := None;
        if !IsIPv4(profile.hostname) { sni := Some(profile.hostname); }
        return Success((Some(LoadFiles(profile.certificatePath, profile.privateKeyPath)), [ConnectionPolicy(sni)]));
      case Automatic =>
        if profile.challenge != Dns { return Success((None, [])); }
        if profile.providerID.None? { return Failure; }
        if profile.providerID.value !in providers { return Failure; }
        var credential := providers[profile.providerID.value];
        KindUnique(x.providers, credential);
        var adapter := Registry.For(credential.kind);
        if adapter.None? { return Failure; }
        var block := Registry.CaddyProvider(adapter.value, credential.id);
        return Success((Some(DNSIssuer(profile.hostname, block)), []));
      case UnknownTLSMode(_) => return Success((None, []));
    }
  }

  // ----- discovery tables -----------------------------------------------------------------

  ghost function Names(accounts: seq<Account>): set<string> { set a | a in accounts :: a.username }

  function EntriesOf(e: map<string, seq<Entry>>, n: string): seq<Entry> { if n in e then e[n] else [] }

  /** One share's readers entered into the two discovery tables. */
  ghost predicate RecordedAccounts(m: map<string, Account>, read: seq<Account>, m': map<string, Account>) {
    && m'.Keys == m.Keys + Names(read)
    && (forall a :: a in read ==> m'[a.username] == a)
    && (forall n :: n in m && n !in Names(read) ==> m'[n] == m[n])
  }

  ghost predicate RecordedEntries(e: map<string, seq<Entry>>, read: seq<Account>, entry: Entry, e': map<string, seq<Entry>>) {
    && e'.Keys == e.Keys + Names(read)
    && (forall n :: n in e' ==>
          e'[n] == if n in Names(read) then EntriesOf(e, n) + [entry] else EntriesOf(e, n))
  }

  lemma NewName(read: seq<Account>, j: nat)
    requires j < |read| && Distinct(read, AccountKey)
    ensures read[..j + 1] == read[..j] + [read[j]]
    ensures Names(read[..j + 1]) == Names(read[..j]) + {read[j].username}
    ensures read[j].username !in Names(read[..j])
    ensures forall a :: a in read[..j] ==> a.username in Names(read[..j])
  {
  }

  lemma RecordAccountStep(m: map<string, Account>, read: seq<Account>, j: nat, m': map<string, Account>)
    requires j < |read| && Distinct(read, AccountKey) && RecordedAccounts(m, read[..j], m')
    ensures RecordedAccounts(m, read[..j + 1], m'[read[j].username := read[j]])
  {
    hide Names;
    NewName(read, j);
  }

  lemma RecordEntryStep(e: map<string, seq<Entry>>, read: seq<Account>, j: nat, entry: Entry, e': map<string, seq<Entry>>)
    requires j < |read| && Distinct(read, AccountKey) && RecordedEntries(e, read[..j], entry, e')
    ensures RecordedEntries(e, read[..j + 1], entry, e'[read[j].username := EntriesOf(e', read[j].username) + [entry]])
  {
    hide Names;
    NewName(read, j);
    var n := read[j].username;
    assert EntriesOf(e', n) == EntriesOf(e, n);
  }

  method Record(m: map<string, Account>, e: map<string, seq<Entry>>, read: seq<Account>, entry: Entry)
    returns (m': map<string, Account>, e': map<string, seq<Entry>>)
    requires Distinct(read, AccountKey)
    ensures RecordedAccounts(m, read, m') && RecordedEntries(e, read, entry, e')
  {
    m', e' := m, e;
    assert Names(read[..0]) == {};
    for j := 0 to |read|
      invariant RecordedAccounts(m, read[..j], m') && RecordedEntries(e, read[..j], entry, e')
    {
      hide RecordedAccounts;
      hide RecordedEntries;
      var account := read[j];
      RecordAccountStep(m, read, j, m');
      RecordEntryStep(e, read, j, entry, e');
      m', e' := m'[account.username := account], e'[account.username := EntriesOf(e', account.username) + [entry]];
    }
    assert read[..|read|] == read;
  }

  ghost predicate AccountsIndexed(m: map<string, Account>, us: seq<User>, items: seq<ShareItem>) {
    && (forall a :: a in DiscoverySet(us, items) ==> a.username in m && m[a.username] == a)
    && (forall n :: n in m ==> m[n].username == n && m[n] in DiscoverySet(us, items))
  }

  ghost predicate EntriesIndexed(e: map<string, seq<Entry>>, us: seq<User>, items: seq<ShareItem>) {
    && (forall a :: a in DiscoverySet(us, items) ==> a.username in e)
    && (forall n :: n in e ==> exists a :: a in DiscoverySet(us, items) && a.username == n)
    && (forall n :: n in e ==> Elements(e[n]) == EntrySet(us, items, n) && Ascending(e[n], EntryKey))
  }

  lemma DiscoverySetKeyed(us: seq<User>, items: seq<ShareItem>)
    requires SoundUsers(us)
    ensures Keyed(DiscoverySet(us, items), AccountKey)
  {
  }

  lemma DiscoverySetAppend(us: seq<User>, items: seq<ShareItem>, item: ShareItem)
    ensures DiscoverySet(us, items + [item]) ==
            DiscoverySet(us, items) + (if item.share.enabled then GrantSet(us, item.permissions, false) else {})
  {
  }

  lemma EntrySetAppend(us: seq<User>, items: seq<ShareItem>, item: ShareItem, name: string)
    ensures EntrySet(us, items + [item], name) ==
            EntrySet(us, items, name) + (if Reads(us, item, name) then {EntryOf(item)} else {})
  {
  }

  lemma ReadersNamed(us: seq<User>, item: ShareItem, name: string)
    requires item.share.enabled
    ensures Reads(us, item, name) <==> name in Names(AccountsFor(us, item, false))
  {
    ListedProperties(GrantSet(us, item.permissions, false), AccountKey);
  }

  lemma AppendEntry(s: seq<Entry>, e: Entry)
    requires Ascending(s, EntryKey)
    requires forall d :: d in s ==> Less(d.slug, e.slug)
    ensures Ascending(s + [e], EntryKey)
    ensures Elements(s + [e]) == Elements(s) + {e}
  {
  }

  lemma RecordAccounts(us: seq<User>, items: seq<ShareItem>, item: ShareItem, m: map<string, Account>, m': map<string, Account>)
    requires SoundUsers(us) && item.share.enabled && AccountsIndexed(m, us, items)
    requires RecordedAccounts(m, AccountsFor(us, item, false), m')
    ensures AccountsIndexed(m', us, items + [item])
  {
    hide GrantSet;
    hide DiscoverySet;
    hide Listed;
    var read := AccountsFor(us, item, false);
    var after := DiscoverySet(us, items + [item]);
    ListedProperties(GrantSet(us, item.permissions, false), AccountKey);
    DiscoverySetAppend(us, items, item);
    DiscoverySetKeyed(us, items + [item]);
    forall a | a in after ensures a.username in m' && m'[a.username] == a {
      if a.username in Names(read) {
        var b :| b in read && b.username == a.username;
        assert b in after && AccountKey(a) == AccountKey(b);
      } else {
        assert a !in read;
      }
    }
    forall n | n in m' ensures m'[n].username == n && m'[n] in after {
      if n in Names(read) {
        var b :| b in read && b.username == n;
      }
    }
  }

  lemma RecordEntry(us: seq<User>, items: seq<ShareItem>, item: ShareItem, before: seq<Entry>, name: string)
    requires item.share.enabled
    requires Elements(before) == EntrySet(us, items, name) && Ascending(before, EntryKey)
    requires forall i :: i in items ==> Less(i.share.slug, item.share.slug)
    ensures var after := if name in Names(AccountsFor(us, item, false)) then before + [EntryOf(item)] else before;
            Elements(after) == EntrySet(us, items + [item], name) && Ascending(after, EntryKey)
  {
    hide AccountsFor;
    hide Reads;
    EntrySetAppend(us, items, item, name);
    ReadersNamed(us, item, name);
    forall d | d in before ensures Less(d.slug, item.share.slug) {
      assert d in Elements(before);
    }
    AppendEntry(before, EntryOf(item));
  }

  lemma RecordedNames(us: seq<User>, items: seq<ShareItem>, item: ShareItem, read: seq<Account>, n: string)
    requires item.share.enabled && Elements(read) == GrantSet(us, item.permissions, false)
    ensures n in Names(read) || (exists a :: a in DiscoverySet(us, items) && a.username == n) <==>
            exists a :: a in DiscoverySet(us, items + [item]) && a.username == n
  {
    hide GrantSet;
    hide DiscoverySet;
    DiscoverySetAppend(us, items, item);
    if n in Names(read) {
      var a :| a in read && a.username == n;
      assert a in Elements(read);
      assert a in DiscoverySet(us, items + [item]);
    }
    if a :| a in DiscoverySet(us, items) && a.username == n {
      assert a in DiscoverySet(us, items + [item]);
    }
    if a :| a in DiscoverySet(us, items + [item]) && a.username == n {
      if a !in DiscoverySet(us, items) {
        assert a in Elements(read);
      }
    }
  }

  lemma RecordEntries(us: seq<User>, items: seq<ShareItem>, item: ShareItem,
                      e: map<string, seq<Entry>>, e': map<string, seq<Entry>>)
    requires item.share.enabled && EntriesIndexed(e, us, items)
    requires forall i :: i in items ==> Less(i.share.slug, item.share.slug)
    requires RecordedEntries(e, AccountsFor(us, item, false), EntryOf(item), e')
    ensures EntriesIndexed(e', us, items + [item])
  {
    hide GrantSet;
    hide DiscoverySet;
    hide EntrySet;
    hide Listed;
    hide Names;
    var read := AccountsFor(us, item, false);
    ListedProperties(GrantSet(us, item.permissions, false), AccountKey);
    forall n ensures n in e' <==> exists a :: a in DiscoverySet(us, items + [item]) && a.username == n {
      RecordedNames(us, items, item, read, n);
    }
    forall n | n in e' ensures Elements(e'[n]) == EntrySet(us, items + [item], n) && Ascending(e'[n], EntryKey) {
      if n !in e { NoEntries(us, items, n); }
      RecordEntry(us, items, item, EntriesOf(e, n), n);
    }
  }

  lemma NoEntries(us: seq<User>, items: seq<ShareItem>, n: string)
    requires forall a :: a in DiscoverySet(us, items) ==> a.username != n
    ensures EntrySet(us, items, n) == {}
  {
  }

  // ----- routes ---------------------------------------------------------------------------

  datatype ShareTables = ShareTables(
    routes: seq<Route>, warnings: seq<string>, accounts: map<string, Account>, entries: map<string, seq<Entry>>)

  ghost predicate TablesFor(t: ShareTables, x: State, items: seq<ShareItem>) {
    && t.routes == ShareRoutes(x, items) && t.warnings == Warnings(x, items)
    && AccountsIndexed(t.accounts, x.users, items) && EntriesIndexed(t.entries, x.users, items)
  }

  method CompileItem(x: State, item: ShareItem, users: map<ID, User>, t: ShareTables, ghost items: seq<ShareItem>)
    returns (r: Result<ShareTables>)
    requires x.settings.Valid() && SoundUsers(x.users) && UserIndex(users, x.users)
    requires item.share.enabled && TablesFor(t, x, items)
    requires forall i :: i in items ==> Less(i.share.slug, item.share.slug)
    ensures r.Success? <==> ValidPermissions(item, x.users)
    ensures r.Success? ==> TablesFor(r.value, x, items + [item])
  {
    hide ServerSettings.Valid;
    hide ValidPermissions;
    hide AccountsIndexed;
    hide EntriesIndexed;
    hide AccountsFor;
    var compiled := CompileAccounts(item, users, x.users);
    if compiled.Failure? { return Failure; }
    var read, write := compiled.value.0, compiled.value.1;
    var prefix := JoinPublicPath(x.settings.publicBasePath, item.share.slug);
    var paths := [prefix, prefix + "/*"];
    var routes, warnings, accounts, entries := t.routes, t.warnings, t.accounts, t.entries;
    assert (items + [item])[..|items|] == items;
    if |read| > 0 {
      routes := routes + [PermissionRoute(paths, READ_METHODS, read, item.share.path, prefix, Hostname(x))];
    }
    ReadersDistinct(x.users, item);
    accounts, entries := Record(accounts, entries, read, Entry(item.share.slug, item.share.name));
    RecordAccounts(x.users, items, item, t.accounts, accounts);
    RecordEntries(x.users, items, item, t.entries, entries);
    if |write| > 0 {
      routes := routes + [PermissionRoute(paths, [], write, item.share.path, prefix, Hostname(x))];
    }
    if |read| == 0 {
      warnings := warnings + [item.share.slug];
    }
    return Success(ShareTables(routes, warnings, accounts, entries));
  }

  lemma ReadersDistinct(us: seq<User>, item: ShareItem)
    requires SoundUsers(us)
    ensures Distinct(AccountsFor(us, item, false), AccountKey)
  {
    GrantSetKeyed(us, item.permissions, false);
    ListedProperties(GrantSet(us, item.permissions, false), AccountKey);
    AscendingDistinct(AccountsFor(us, item, false), AccountKey);
  }

  lemma DisabledItem(t: ShareTables, x: State, items: seq<ShareItem>, item: ShareItem)
    requires TablesFor(t, x, items) && !item.share.enabled
    ensures TablesFor(t, x, items + [item])
  {
    assert (items + [item])[..|items|] == items;
    DiscoverySetAppend(x.users, items, item);
    forall n ensures EntrySet(x.users, items + [item], n) == EntrySet(x.users, items, n) {
      EntrySetAppend(x.users, items, item, n);
    }
  }

  ghost predicate AcceptableShare(item: ShareItem, us: seq<User>) {
    item.share.Valid() && (item.share.enabled ==> ValidPermissions(item, us))
  }

  lemma SortedShares(items: seq<ShareItem>, us: seq<User>)
    ensures var sorted := SortBy(items, ItemKey);
            && (forall i :: i in sorted <==> i in items)
            && (ValidShares(items) && (forall i :: i in items && i.share.enabled ==> ValidPermissions(i, us)) <==>
                && (forall k :: 0 <= k < |sorted| ==> AcceptableShare(sorted[k], us))
                && Distinct(sorted, ItemID) && Distinct(sorted, ItemSlug))
  {
    hide Share.Valid;
    hide ValidPermissions;
    SortElements(items, ItemKey);
    SortDistinct(items, ItemKey, ItemID);
    SortDistinct(items, ItemKey, ItemSlug);
  }

  lemma EarlierSlugs(sorted: seq<ShareItem>, k: nat)
    requires k < |sorted| && WeaklyAscending(sorted, ItemKey)
    requires forall j :: 0 <= j < k ==> ItemSlug(sorted[j]) != ItemSlug(sorted[k])
    ensures forall i :: i in sorted[..k] ==> Less(i.share.slug, sorted[k].share.slug)
  {
    forall i | i in sorted[..k] ensures Less(i.share.slug, sorted[k].share.slug) {
      var j :| 0 <= j < k && sorted[j] == i;
      assert !Before(ItemKey(sorted[k]), ItemKey(sorted[j]));
      LessTotal(sorted[j].share.slug, sorted[k].share.slug);
    }
  }

  lemma NoTables(x: State)
    ensures TablesFor(ShareTables([], [], map[], map[]), x, [])
  {
  }

  lemma AcceptableNow(item: ShareItem, us: seq<User>)
    ensures item.share.Valid() ==>
              (AcceptableShare(item, us) <==> !item.share.enabled || ValidPermissions(item, us))
    ensures !item.share.Valid() ==> !AcceptableShare(item, us)
  {
  }

  method CompileShares(x: State, users: map<ID, User>) returns (r: Result<ShareTables>)
    requires x.settings.Valid() && SoundUsers(x.users) && UserIndex(users, x.users)
    ensures r.Success? <==> ValidShares(x.shares) &&
                            (forall item :: item in x.shares && item.share.enabled ==> ValidPermissions(item, x.users))
    ensures r.Success? ==> TablesFor(r.value, x, SortBy(x.shares, ItemKey))
  {
    hide TablesFor;
    hide Seen;
    hide Share.Valid;
    hide ServerSettings.Valid;
    hide ValidPermissions;
    hide WeaklyAscending;
    hide SortBy;
    hide AcceptableShare;
    var shares := SortBy(x.shares, ItemKey);
    SortedShares(x.shares, x.users);
    SortWeaklyAscending(x.shares, ItemKey);
    var seenShares, seenSlugs: set<string> := {}, {};
    SeenNone(shares, ItemID);
    SeenNone(shares, ItemSlug);
    NoTables(x);
    var t := ShareTables([], [], map[], map[]);
    for i := 0 to |shares|
      invariant Seen(seenShares, shares, i, ItemID) && Seen(seenSlugs, shares, i, ItemSlug)
      invariant forall k :: 0 <= k < i ==> AcceptableShare(shares[k], x.users)
      invariant TablesFor(t, x, shares[..i])
    {
      var item := shares[i];
      SeenStep(seenShares, shares, i, ItemID);
      SeenStep(seenSlugs, shares, i, ItemSlug);
      AcceptableNow(item, x.users);
      if !item.share.Valid() { return Failure; }
      if item.share.id in seenShares { return Failure; }
      seenShares := seenShares + {item.share.id};
      if item.share.slug in seenSlugs { return Failure; }
      seenSlugs := seenSlugs + {item.share.slug};
      assert shares[..i + 1] == shares[..i] + [item];
      if !item.share.enabled {
        DisabledItem(t, x, shares[..i], item);
        continue;
      }
      EarlierSlugs(shares, i);
      var compiled := CompileItem(x, item, users, t, shares[..i]);
      if compiled.Failure? { return Failure; }
      t := compiled.value;
    }
    SeenAll(seenShares, shares, ItemID);
    SeenAll(seenSlugs, shares, ItemSlug);
    assert shares[..|shares|] == shares;
    return Success(t);
  }

  // ----- the index route --------------------------------------------------------------------

  lemma SameReaders(us: seq<User>, a: seq<ShareItem>, b: seq<ShareItem>)
    requires forall i :: i in a <==> i in b
    ensures DiscoverySet(us, a) == DiscoverySet(us, b)
    ensures forall n :: EntrySet(us, a, n) == EntrySet(us, b, n)
  {
    hide GrantSet;
    hide Reads;
  }

  /** The tables, brought into ascending order, are the listings the specification asks for. */
  lemma IndexComplete(us: seq<User>, items: seq<ShareItem>, m: map<string, Account>, e: map<string, seq<Entry>>,
                      names: seq<string>, accounts: seq<Account>)
    requires AccountsIndexed(m, us, items) && EntriesIndexed(e, us, items)
    requires Ascending(names, TextKey) && Elements(names) == m.Keys
    requires |accounts| == |names| && forall i :: 0 <= i < |names| ==> names[i] in m && accounts[i] == m[names[i]]
    ensures accounts == Listed(DiscoverySet(us, items), AccountKey)
    ensures e == EntriesFor(us, items)
  {
    hide DiscoverySet;
    hide EntrySet;
    hide Listed;
    hide Ascending;
    hide EntriesIndexed;
    AccountsListed(us, items, m, names, accounts);
    EntriesListed(us, items, m, e);
  }

  lemma AccountsListed(us: seq<User>, items: seq<ShareItem>, m: map<string, Account>, names: seq<string>, accounts: seq<Account>)
    requires AccountsIndexed(m, us, items)
    requires Ascending(names, TextKey) && Elements(names) == m.Keys
    requires |accounts| == |names| && forall i :: 0 <= i < |names| ==> names[i] in m && accounts[i] == m[names[i]]
    ensures accounts == Listed(DiscoverySet(us, items), AccountKey)
  {
    hide DiscoverySet;
    hide Listed;
    forall i, j | 0 <= i < j < |accounts| ensures Before(AccountKey(accounts[i]), AccountKey(accounts[j])) {
      assert Before(TextKey(names[i]), TextKey(names[j]));
    }
    forall a | a in DiscoverySet(us, items) ensures a in accounts {
      assert a.username in Elements(names);
      var i :| 0 <= i < |names| && names[i] == a.username;
      assert accounts[i] == a;
    }
    assert Elements(accounts) == DiscoverySet(us, items);
    ListedUnique(accounts, DiscoverySet(us, items), AccountKey);
  }

  lemma EntriesListed(us: seq<User>, items: seq<ShareItem>, m: map<string, Account>, e: map<string, seq<Entry>>)
    requires AccountsIndexed(m, us, items) && EntriesIndexed(e, us, items)
    ensures e == EntriesFor(us, items)
  {
    hide EntrySet;
    hide Listed;
    hide Ascending;
    forall n | n in e ensures e[n] == Listed(EntrySet(us, items, n), EntryKey) {
      ListedUnique(e[n], EntrySet(us, items, n), EntryKey);
    }
  }

  /** The account list in the order of the names, with every entry list sorted. */
  method ListAccounts(m: map<string, Account>, e: map<string, seq<Entry>>, names: seq<string>)
    returns (accounts: seq<Account>, entries: map<string, seq<Entry>>)
    requires Elements(names) == m.Keys == e.Keys
    requires forall n :: n in e ==> Ascending(e[n], EntryKey)
    ensures |accounts| == |names| && forall i :: 0 <= i < |names| ==> names[i] in m && accounts[i] == m[names[i]]
    ensures entries == e
  {
    accounts, entries := [], e;
    for i := 0 to |names|
      invariant |accounts| == i
      invariant forall j :: 0 <= j < i ==> names[j] in m && accounts[j] == m[names[j]]
      invariant entries == e
    {
      assert names[i] in Elements(names);
      accounts := accounts + [m[names[i]]];
      SortIdempotent(e[names[i]], EntryKey);
      entries := entries[names[i] := SortBy(entries[names[i]], EntryKey)];
    }
  }

  lemma IndexKeys(us: seq<User>, items: seq<ShareItem>, m: map<string, Account>, e: map<string, seq<Entry>>)
    requires AccountsIndexed(m, us, items) && EntriesIndexed(e, us, items)
    ensures m.Keys == e.Keys && (forall n :: n in e ==> Ascending(e[n], EntryKey))
    ensures m.Keys == {} <==> DiscoverySet(us, items) == {}
  {
  }

  method CompileIndex(x: State, m: map<string, Account>, e: map<string, seq<Entry>>) returns (routes: seq<Route>)
    requires AccountsIndexed(m, x.users, x.shares) && EntriesIndexed(e, x.users, x.shares)
    ensures routes == IndexRoutes(x)
  {
    hide AccountsIndexed;
    hide EntriesIndexed;
    hide DiscoverySet;
    hide Listed;
    hide EntriesFor;
    IndexKeys(x.users, x.shares, m, e);
    if m.Keys == {} { return []; }
    var names := SortedKeys(m.Keys, TextKey);
    var accounts, entries := ListAccounts(m, e, names);
    IndexComplete(x.users, x.shares, m, e, names, accounts);
    var root := TrimSlash(x.settings.publicBasePath);
    if root == "" { root := "/"; }
    var paths := [root];
    if root != "/" { paths := paths + [root + "/"]; }
    assert paths == RootPaths(root);
    return [DiscoveryRoute(paths, accounts, entries, root, Hostname(x))];
  }

  /** Compile: accepts exactly the compilable states and produces the specified configuration. */
  method Compile(x: State) returns (r: Result<CompiledConfig>)
    ensures r.Success? <==> Compilable(x)
    ensures r.Success? ==> r.value == Compiled(x)
  {
    hide ServerSettings.Valid;
    hide TLSProfile.Valid;
    hide Provider.Valid;
    hide ValidUsers;
    hide ValidShares;
    hide ValidPermissions;
    hide IndexRoutes;
    hide ShareRoutes;
    hide SortBy;
    hide AccountsIndexed;
    hide EntriesIndexed;
    if !x.settings.Valid() { return Failure; }
    var providersOk, providers := CollectProviders(x.providers);
    if !providersOk { return Failure; }
    var hostname := "";
    if x.tls.Some? {
      if !x.tls.value.Valid() { return Failure; }
      hostname := x.tls.value.hostname;
    }
    var usersOk, users := CollectUsers(x.users);
    if !usersOk { return Failure; }
    ValidUsersSound(x.users);
    var shares := CompileShares(x, users);
    if shares.Failure? { return Failure; }
    var t := shares.value;
    SortElements(x.shares, ItemKey);
    ReindexTables(t, x);
    var index := CompileIndex(x, t.accounts, t.entries);
    var routes := index + t.routes;
    var listen, tls, policies, https, redirect := x.settings.httpPort, None, [], Unset, None;
    var localCA := false;
    if x.tls.Some? {
      listen, https := x.settings.httpsPort, RedirectsDisabled;
      routes := routes + [Route(Matcher([], [], [hostname]), [StaticResponse(404, None)], true)];
      var compiled := CompileTLS(x, providers);
      if compiled.Failure? { return Failure; }
      tls, policies := compiled.value.0, compiled.value.1;
      localCA := x.tls.value.mode == Internal;
      var location := Location(hostname, if x.settings.httpsPort != 443 then Some(x.settings.httpsPort) else None);
      redirect := Some(Server(x.settings.httpPort,
                              [Route(Matcher([], [], [hostname]), [StaticResponse(308, Some(location))], true)], [], Disabled));
    }
    assert routes == AllRoutes(x);
    var config := Config(x.settings.httpPort, x.settings.httpsPort,
                         Server(listen, routes, policies, https), redirect, tls, localCA);
    return Success(CompiledConfig(config, Identity.Sha256(config), t.warnings));
  }

  lemma ReindexTables(t: ShareTables, x: State)
    requires TablesFor(t, x, SortBy(x.shares, ItemKey))
    ensures AccountsIndexed(t.accounts, x.users, x.shares) && EntriesIndexed(t.entries, x.users, x.shares)
  {
    SortElements(x.shares, ItemKey);
    SameReaders(x.users, SortBy(x.shares, ItemKey), x.shares);
  }
}
