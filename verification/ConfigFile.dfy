/** The interchange document: validation and export. */
module ConfigFile {
  import opened Ordering
  import opened Domain
  import opened Snapshot

  datatype DocServer = DocServer(publicBasePath: string, httpPort: int, httpsPort: int, runtimeMode: RuntimeMode)

  datatype DocTLS = DocTLS(mode: TLSMode, hostname: string, challenge: Challenge, dnsProvider: string,
                           certificatePath: string, privateKeyPath: string)

  datatype DocUser = DocUser(username: string, enabled: Option<bool>)

  datatype DocShare = DocShare(name: string, slug: string, path: string, enabled: Option<bool>, permissions: map<string, string>)

  datatype Document = Document(version: int, server: Option<DocServer>, tls: Option<DocTLS>,
                               users: seq<DocUser>, shares: seq<DocShare>)

  const VERSION := 1

  // ----- permissions as text --------------------------------------------------------------

  function ParsePermission(s: string): Option<Permission> {
    if s == "none" then Some(NoAccess)
    else if s == "read" then Some(Read)
    else if s == "read_write" then Some(ReadWrite)
    else None
  }

  function PermissionValue(p: Permission): Option<string> {
    match p
    case NoAccess => Some("none")
    case Read => Some("read")
    case ReadWrite => Some("read_write")
    case UnknownPermission(_) => None
  }

  /** The two conversions are inverse to each other. */
  lemma PermissionRoundTrip(p: Permission, s: string)
    ensures PermissionValue(p) == Some(s) <==> ParsePermission(s) == Some(p) && !p.UnknownPermission?
  {
  }

  // ----- validation ---------------------------------------------------------------------------

  const PLACEHOLDER_ID: ID := "00000000-0000-4000-8000-000000000001"
  const PLACEHOLDER_STAMP: Timestamp := 1

  function DocNormalized(u: DocUser): string { NormalizeUsername(u.username) }
  function DocSlug(s: DocShare): string { s.slug }

  function PlaceholderSettings(s: DocServer): ServerSettings {
    ServerSettings(PLACEHOLDER_ID, s.publicBasePath, s.httpPort, s.httpsPort, s.runtimeMode, PLACEHOLDER_STAMP, PLACEHOLDER_STAMP)
  }

  function PlaceholderProfile(p: DocTLS): TLSProfile {
    TLSProfile(PLACEHOLDER_ID, p.mode, p.hostname, p.challenge, if p.dnsProvider != "" then Some(PLACEHOLDER_ID) else None,
               p.certificatePath, p.privateKeyPath, PLACEHOLDER_STAMP, PLACEHOLDER_STAMP)
  }

  function PlaceholderUser(username: string, enabled: bool): User {
    User(PLACEHOLDER_ID, username, NormalizeUsername(username), "not-exported", enabled, PLACEHOLDER_STAMP, PLACEHOLDER_STAMP)
  }

  function PlaceholderShare(s: DocShare, enabled: bool): Share {
    Share(PLACEHOLDER_ID, s.name, s.slug, s.path, enabled, PLACEHOLDER_STAMP, PLACEHOLDER_STAMP)
  }

  predicate ValidDocUser(u: DocUser) {
    u.enabled.Some? && PlaceholderUser(u.username, u.enabled.value).Valid()
  }

  predicate ValidDocShare(s: DocShare) {
    s.enabled.Some? && PlaceholderShare(s, s.enabled.value).Valid()
  }

  ghost predicate ValidDocPermissions(ps: map<string, string>) {
    && (forall n :: n in ps ==> PlaceholderUser(n, true).Valid() && ParsePermission(ps[n]).Some?)
    && (forall m, n :: m in ps && n in ps && NormalizeUsername(m) == NormalizeUsername(n) ==> m == n)
  }

  ghost predicate ValidDocument(d: Document) {
    && (d.server.Some? ==> PlaceholderSettings(d.server.value).Valid())
    && (d.tls.Some? ==> PlaceholderProfile(d.tls.value).Valid())
    && (forall u :: u in d.users ==> ValidDocUser(u)) && Distinct(d.users, DocNormalized)
    && (forall s :: s in d.shares ==> ValidDocShare(s)) && Distinct(d.shares, DocSlug)
    && (forall s :: s in d.shares ==> ValidDocPermissions(s.permissions))
  }

  method ValidatePermissions(ps: map<string, string>) returns (ok: bool)
    ensures ok <==> ValidDocPermissions(ps)
  {
    hide User.Valid;
    hide NormalizeUsername;
    hide ParsePermission;
    var seen: set<string> := {};
    var rest := ps.Keys;
    while rest != {}
      invariant rest <= ps.Keys
      invariant forall n :: n in ps.Keys - rest ==>
                              PlaceholderUser(n, true).Valid() && ParsePermission(ps[n]).Some? && NormalizeUsername(n) in seen
      invariant forall k :: k in seen ==> exists n :: n in ps.Keys - rest && NormalizeUsername(n) == k
      invariant forall m, n :: m in ps.Keys - rest && n in ps.Keys - rest && NormalizeUsername(m) == NormalizeUsername(n) ==> m == n
    {
      var n :| n in rest;
      var normalized := NormalizeUsername(n);
      if !PlaceholderUser(n, true).Valid() { return false; }
      if normalized in seen { return false; }
      if ParsePermission(ps[n]).None? { return false; }
      var smaller := rest - {n};
      assert ps.Keys - smaller == (ps.Keys - rest) + {n};
      seen, rest := seen + {normalized}, smaller;
    }
    return true;
  }

  method ValidateUsers(us: seq<DocUser>) returns (ok: bool)
    ensures ok <==> (forall u :: u in us ==> ValidDocUser(u)) && Distinct(us, DocNormalized)
  {
    hide Seen;
    hide User.Valid;
    var seen: set<string> := {};
    SeenNone(us, DocNormalized);
    for i := 0 to |us|
      invariant Seen(seen, us, i, DocNormalized)
      invariant forall j :: 0 <= j < i ==> ValidDocUser(us[j])
    {
      var u := us[i];
      assert u in us;
      SeenStep(seen, us, i, DocNormalized);
      if u.enabled.None? { return false; }
      var normalized := NormalizeUsername(u.username);
      if !PlaceholderUser(u.username, u.enabled.value).Valid() || normalized in seen { return false; }
      seen := seen + {normalized};
    }
    SeenAll(seen, us, DocNormalized);
    return true;
  }

  method Validate(d: Document) returns (ok: bool)
    ensures ok <==> ValidDocument(d)
  {
    hide Seen;
    hide ServerSettings.Valid;
    hide TLSProfile.Valid;
    hide Share.Valid;
    hide ValidDocUser;
    hide ValidDocPermissions;
    if d.server.Some? && !PlaceholderSettings(d.server.value).Valid() { return false; }
    if d.tls.Some? && !PlaceholderProfile(d.tls.value).Valid() { return false; }
    var usersOk := ValidateUsers(d.users);
    if !usersOk { return false; }
    var seen: set<string> := {};
    SeenNone(d.shares, DocSlug);
    for i := 0 to |d.shares|
      invariant Seen(seen, d.shares, i, DocSlug)
      invariant forall j :: 0 <= j < i ==> ValidDocShare(d.shares[j]) && ValidDocPermissions(d.shares[j].permissions)
    {
      var s := d.shares[i];
      assert s in d.shares;
      SeenStep(seen, d.shares, i, DocSlug);
      if s.enabled.None? { return false; }
      if !PlaceholderShare(s, s.enabled.value).Valid() || s.slug in seen { return false; }
      seen := seen + {s.slug};
      var permissionsOk := ValidatePermissions(s.permissions);
      if !permissionsOk { return false; }
    }
    SeenAll(seen, d.shares, DocSlug);
    return true;
  }

  // ----- export --------------------------------------------------------------------------------------

  function DocUserKey(u: DocUser): Key { Key(DocNormalized(u), "") }
  function DocShareKey(s: DocShare): Key { Key(s.slug, "") }

  function DocUserOf(u: User): DocUser { DocUser(u.username, Some(u.enabled)) }

  function DocServerOf(s: ServerSettings): DocServer {
    DocServer(s.publicBasePath, s.httpPort, s.httpsPort, s.runtimeMode)
  }

  /** The name of the user with this identifier. */
  ghost function NameOf(us: seq<User>, id: ID): string
    requires KnownUser(us, id)
  {
    var u :| u in us && u.id == id; u.username
  }

  ghost predicate Names(us: seq<User>, p: SharePermission, n: string) { KnownUser(us, p.userID) && NameOf(us, p.userID) == n }

  /** A share's permission rows as a mapping from user name to permission text. */
  ghost predicate PermissionsExported(m: map<string, string>, us: seq<User>, ps: seq<SharePermission>) {
    && (forall n :: n in m <==> exists p :: p in ps && Names(us, p, n))
    && (forall p :: p in ps && KnownUser(us, p.userID) ==> NameOf(us, p.userID) in m && Some(m[NameOf(us, p.userID)]) == PermissionValue(p.permission))
  }

  ghost predicate ShareExported(d: DocShare, us: seq<User>, item: ShareItem) {
    && d.name == item.share.name && d.slug == item.share.slug && d.path == item.share.path && d.enabled == Some(item.share.enabled)
    && PermissionsExported(d.permissions, us, item.permissions)
  }

  ghost predicate TLSExported(d: Option<DocTLS>, tls: Option<TLSProfile>, ps: seq<Provider>) {
    && (d.Some? <==> tls.Some?)
    && (d.Some? ==>
          var p := tls.value;
          && d.value == DocTLS(p.mode, p.hostname, p.challenge, d.value.dnsProvider, p.certificatePath, p.privateKeyPath)
          && (if p.providerID.None? then d.value.dnsProvider == ""
              else d.value.dnsProvider != "" && exists q :: q in ps && q.id == p.providerID.value && q.name == d.value.dnsProvider))
  }

  /** d is the document of x: every row once, in order. */
  ghost predicate Exported(d: Document, x: State) {
    && d.version == VERSION && d.server == Some(DocServerOf(x.settings)) && TLSExported(d.tls, x.tls, x.providers)
    && d.users == SortBy(Map(DocUserOf, x.users), DocUserKey)
    && Ascending(d.shares, DocShareKey)
    && (forall s :: s in d.shares ==> exists item :: item in x.shares && ShareExported(s, x.users, item))
    && (forall item :: item in x.shares ==> exists s :: s in d.shares && ShareExported(s, x.users, item))
  }

  /** The first provider with the profile's id, if one is needed, has a name. */
  ghost predicate TLSExportable(tls: Option<TLSProfile>, ps: seq<Provider>) {
    tls.Some? && tls.value.providerID.Some? ==>
      exists i :: 0 <= i < |ps| && ps[i].id == tls.value.providerID.value && ps[i].name != ""
                  && forall j :: 0 <= j < i ==> ps[j].id != tls.value.providerID.value
  }

  method ExportTLS(tls: Option<TLSProfile>, ps: seq<Provider>) returns (r: Result<Option<DocTLS>>)
    ensures r.Success? <==> TLSExportable(tls, ps)
    ensures r.Success? ==> TLSExported(r.value, tls, ps)
  {
    if tls.None? { return Success(None); }
    var p := tls.value;
    var name := "";
    if p.providerID.Some? {
      var i := 0;
      while i < |ps| && ps[i].id != p.providerID.value
        invariant 0 <= i <= |ps|
        invariant forall j :: 0 <= j < i ==> ps[j].id != p.providerID.value
      {
        i := i + 1;
      }
      if i < |ps| { name := ps[i].name; }
      if name == "" {
        return Failure;
      }
      assert ps[i] in ps;
    }
    return Success(Some(DocTLS(p.mode, p.hostname, p.challenge, name, p.certificatePath, p.privateKeyPath)));
  }

  /** userByID of Export. */
  ghost predicate NameIndex(names: map<ID, string>, us: seq<User>) {
    && (forall id :: id in names <==> KnownUser(us, id))
    && (forall u :: u in us ==> names[u.id] == u.username && NameOf(us, u.id) == u.username)
  }

  lemma NameUnique(us: seq<User>, u: User)
    requires Distinct(us, UserID) && u in us
    ensures KnownUser(us, u.id) && NameOf(us, u.id) == u.username
  {
  }

  method ExportUsers(us: seq<User>) returns (names: map<ID, string>, users: seq<DocUser>)
    requires Distinct(us, UserID)
    ensures NameIndex(names, us) && users == Map(DocUserOf, us)
  {
    names, users := map[], [];
    for i := 0 to |us|
      invariant users == Map(DocUserOf, us)[..i]
      invariant forall id :: id in names <==> exists j :: 0 <= j < i && us[j].id == id
      invariant forall j :: 0 <= j < i ==> us[j].id in names && names[us[j].id] == us[j].username
    {
      forall j | 0 <= j < i ensures us[j].id != us[i].id { assert UserID(us[j]) != UserID(us[i]); }
      ghost var before := names;
      names := names[us[i].id := us[i].username];
      forall id ensures id in names <==> exists j :: 0 <= j < i + 1 && us[j].id == id {
        if id in before {
          var j :| 0 <= j < i && us[j].id == id;
          assert 0 <= j < i + 1 && us[j].id == id;
        }
        if id == us[i].id { assert 0 <= i < i + 1 && us[i].id == id; }
      }
      users := users + [DocUser(us[i].username, Some(us[i].enabled))];
    }
    forall u | u in us ensures KnownUser(us, u.id) && NameOf(us, u.id) == u.username && u.id in names && names[u.id] == u.username {
      NameUnique(us, u);
    }
    forall id | id in names ensures KnownUser(us, id) {
      var j :| 0 <= j < |us| && us[j].id == id;
      assert us[j] in us;
    }
  }

  /** Distinct users have distinct names. */
  ghost predicate DistinctNames(us: seq<User>) {
    forall a, b :: KnownUser(us, a) && KnownUser(us, b) && NameOf(us, a) == NameOf(us, b) ==> a == b
  }

  method ExportPermissions(ps: seq<SharePermission>, names: map<ID, string>, ghost us: seq<User>)
    returns (r: Result<map<string, string>>)
    requires NameIndex(names, us) && DistinctNames(us) && Distinct(ps, PermissionUser)
    ensures r.Success? <==> forall p :: p in ps ==> KnownUser(us, p.userID) && PermissionValue(p.permission).Some?
    ensures r.Success? ==> PermissionsExported(r.value, us, ps)
  {
    hide KnownUser;
    hide NameOf;
    var m: map<string, string> := map[];
    for i := 0 to |ps|
      invariant forall j :: 0 <= j < i ==> KnownUser(us, ps[j].userID) && PermissionValue(ps[j].permission).Some?
      invariant forall j :: 0 <= j < i ==> NameOf(us, ps[j].userID) in m
                                           && Some(m[NameOf(us, ps[j].userID)]) == PermissionValue(ps[j].permission)
      invariant forall n :: n in m ==> exists j :: 0 <= j < i && Names(us, ps[j], n)
    {
      var p := ps[i];
      assert p in ps;
      if p.userID !in names { return Failure; }
      var value := PermissionValue(p.permission);
      if value.None? { return Failure; }
      var name := names[p.userID];
      assert name == NameOf(us, p.userID) by { IndexedName(names, us, p.userID); }
      forall j | 0 <= j < i ensures NameOf(us, ps[j].userID) != name {
        assert PermissionUser(ps[j]) != PermissionUser(ps[i]);
      }
      ghost var before := m;
      m := m[name := value.value];
      forall n | n in m ensures exists j :: 0 <= j < i + 1 && Names(us, ps[j], n) {
        if n in before {
          var j :| 0 <= j < i && Names(us, ps[j], n);
          assert 0 <= j < i + 1 && Names(us, ps[j], n);
        } else {
          assert Names(us, ps[i], n);
        }
      }
    }
    return Success(m);
  }

  lemma IndexedName(names: map<ID, string>, us: seq<User>, id: ID)
    requires NameIndex(names, us) && id in names
    ensures KnownUser(us, id) && names[id] == NameOf(us, id)
  {
  }

  /** What the tables guarantee of any state read from them. */
  ghost predicate TableRows(x: State) {
    && ValidUsers(x.users) && Distinct(x.shares, ItemSlug)
    && forall item :: item in x.shares ==> Distinct(item.permissions, PermissionUser)
  }

  ghost predicate Exportable(item: ShareItem, us: seq<User>) {
    forall p :: p in item.permissions ==> KnownUser(us, p.userID) && PermissionValue(p.permission).Some?
  }

  method ExportShares(items: seq<ShareItem>, names: map<ID, string>, ghost us: seq<User>) returns (r: Result<seq<DocShare>>)
    requires NameIndex(names, us) && DistinctNames(us)
    requires forall item :: item in items ==> Distinct(item.permissions, PermissionUser)
    ensures r.Success? <==> forall item :: item in items ==> Exportable(item, us)
    ensures r.Success? ==> |r.value| == |items| && forall i :: 0 <= i < |items| ==> ShareExported(r.value[i], us, items[i])
  {
    hide NameIndex;
    hide DistinctNames;
    hide PermissionsExported;
    var shares: seq<DocShare> := [];
    for i := 0 to |items|
      invariant |shares| == i
      invariant forall j :: 0 <= j < i ==> Exportable(items[j], us) && ShareExported(shares[j], us, items[j])
    {
      var item := items[i];
      assert item in items;
      var permissions := ExportPermissions(item.permissions, names, us);
      if permissions.Failure? { return Failure; }
      shares := shares + [DocShare(item.share.name, item.share.slug, item.share.path, Some(item.share.enabled), permissions.value)];
    }
    return Success(shares);
  }

  /** Export, up to the YAML encoding. */
  method Export(x: State) returns (r: Result<Document>)
    requires TableRows(x)
    ensures r.Success? <==> TLSExportable(x.tls, x.providers) && forall item :: item in x.shares ==> Exportable(item, x.users)
    ensures r.Success? ==> Exported(r.value, x)
    ensures Valid(x) ==> r.Success?
  {
    hide ValidUsers;
    hide ValidTLS;
    hide ValidProviders;
    hide ValidShares;
    hide TLSExported;
    hide TLSExportable;
    hide NameIndex;
    hide ShareExported;
    if Valid(x) { ValidExportable(x); }
    var tls := ExportTLS(x.tls, x.providers);
    if tls.Failure? { return Failure; }
    UsersOfRows(x.users);
    var names, users := ExportUsers(x.users);
    var shares := ExportShares(x.shares, names, x.users);
    if shares.Failure? { return Failure; }
    var d := Document(VERSION, Some(DocServerOf(x.settings)), tls.value,
                      SortBy(users, DocUserKey), SortBy(shares.value, DocShareKey));
    assert InStep(x, shares.value);
    SortedSharesAscend(x, shares.value);
    SortedSharesFrom(x, shares.value);
    SortedSharesCover(x, shares.value);
    return Success(d);
  }

  lemma UsersOfRows(us: seq<User>)
    requires ValidUsers(us)
    ensures Distinct(us, UserID) && DistinctNames(us)
  {
  }

  lemma ValidExportable(x: State)
    requires Valid(x)
    ensures TLSExportable(x.tls, x.providers) && forall item :: item in x.shares ==> Exportable(item, x.users)
  {
    if x.tls.Some? && x.tls.value.providerID.Some? {
      hide ValidUsers;
      hide ValidShares;
      hide ValidAccess;
      ExportableProvider(x.providers, x.tls.value.providerID.value);
    }
  }

  lemma ExportableProvider(ps: seq<Provider>, id: ID)
    requires ValidProviders(ps) && KnownProvider(ps, id)
    ensures exists i :: 0 <= i < |ps| && ps[i].id == id && ps[i].name != "" && forall j :: 0 <= j < i ==> ps[j].id != id
  {
    var p :| p in ps && p.id == id;
    var i :| 0 <= i < |ps| && ps[i] == p;
    assert p.Valid();
    forall j | 0 <= j < i ensures ps[j].id != id { assert ProviderID(ps[j]) != ProviderID(ps[i]); }
  }

  /** The exported shares match the state's, position by position. */
  ghost predicate InStep(x: State, shares: seq<DocShare>) {
    |shares| == |x.shares| && forall i :: 0 <= i < |shares| ==> ShareExported(shares[i], x.users, x.shares[i])
  }

  lemma SortedSharesAscend(x: State, shares: seq<DocShare>)
    requires Distinct(x.shares, ItemSlug) && InStep(x, shares)
    ensures Ascending(SortBy(shares, DocShareKey), DocShareKey)
  {
    hide PermissionsExported;
    forall i, j | 0 <= i < j < |shares| ensures DocShareKey(shares[i]) != DocShareKey(shares[j]) {
      assert ItemSlug(x.shares[i]) != ItemSlug(x.shares[j]);
    }
    SortAscending(shares, DocShareKey);
  }

  lemma SortedSharesFrom(x: State, shares: seq<DocShare>)
    requires InStep(x, shares)
    ensures forall s :: s in SortBy(shares, DocShareKey) ==> exists item :: item in x.shares && ShareExported(s, x.users, item)
  {
    hide ShareExported;
    SortElements(shares, DocShareKey);
    forall s | s in SortBy(shares, DocShareKey) ensures exists item :: item in x.shares && ShareExported(s, x.users, item) {
      var i :| 0 <= i < |shares| && shares[i] == s;
      assert x.shares[i] in x.shares;
    }
  }

  lemma SortedSharesCover(x: State, shares: seq<DocShare>)
    requires InStep(x, shares)
    ensures forall item :: item in x.shares ==> exists s :: s in SortBy(shares, DocShareKey) && ShareExported(s, x.users, item)
  {
    hide ShareExported;
    SortElements(shares, DocShareKey);
    forall item | item in x.shares ensures exists s :: s in SortBy(shares, DocShareKey) && ShareExported(s, x.users, item) {
      var i :| 0 <= i < |x.shares| && x.shares[i] == item;
      assert shares[i] in shares;
    }
  }

  // ----- every valid state exports to a valid document -----------------------------------------------

  lemma PlaceholderValid()
    ensures ValidID(PLACEHOLDER_ID)
    ensures TrimSpace("not-exported") != "" && !ContainsControl("not-exported")
  {
    assert PLACEHOLDER_ID[8] == '-' && PLACEHOLDER_ID[13] == '-' && PLACEHOLDER_ID[18] == '-' && PLACEHOLDER_ID[23] == '-';
  }

  lemma DocUserValid(u: User)
    requires u.Valid()
    ensures ValidDocUser(DocUserOf(u)) && forall enabled :: PlaceholderUser(u.username, enabled).Valid()
  {
    PlaceholderValid();
  }

  lemma ExportedUsersValid(us: seq<User>)
    requires ValidUsers(us)
    ensures var docs := SortBy(Map(DocUserOf, us), DocUserKey);
            && (forall d :: d in docs ==> ValidDocUser(d)) && Distinct(docs, DocNormalized) && Ascending(docs, DocUserKey)
            && (forall u :: u in us ==> DocUserOf(u) in docs)
            && (forall d :: d in docs ==> exists u :: u in us && DocUserOf(u) == d)
  {
    hide User.Valid;
    hide ValidDocUser;
    hide NormalizeUsername;
    SortedMapElements(us, DocUserOf, DocUserKey);
    forall u | u in us ensures DocNormalized(DocUserOf(u)) == u.normalized && ValidDocUser(DocUserOf(u)) {
      UserNormalForm(u);
      DocUserValid(u);
    }
    forall i, j | 0 <= i < j < |us| ensures DocUserKey(Map(DocUserOf, us)[i]) != DocUserKey(Map(DocUserOf, us)[j]) {
      assert us[i] in us && us[j] in us && UserNormalized(us[i]) != UserNormalized(us[j]);
    }
    SortAscending(Map(DocUserOf, us), DocUserKey);
    AscendingDistinct(SortBy(Map(DocUserOf, us), DocUserKey), DocUserKey);
    var docs := SortBy(Map(DocUserOf, us), DocUserKey);
    forall i, j | 0 <= i < j < |docs| ensures DocNormalized(docs[i]) != DocNormalized(docs[j]) {
      assert DocUserKey(docs[i]) != DocUserKey(docs[j]);
    }
  }

  lemma UserNormalForm(u: User)
    requires u.Valid()
    ensures u.normalized == NormalizeUsername(u.username)
  {
  }

  lemma ExportedPermissionsValid(m: map<string, string>, us: seq<User>, item: ShareItem)
    requires ValidUsers(us) && ValidPermissions(item, us) && PermissionsExported(m, us, item.permissions)
    ensures ValidDocPermissions(m)
  {
    hide SharePermission.Valid;
    hide NormalizeUsername;
    hide User.Valid;
    forall n | n in m
      ensures PlaceholderUser(n, true).Valid() && ParsePermission(m[n]).Some?
      ensures exists u :: u in us && u.username == n
    {
      var p :| p in item.permissions && Names(us, p, n);
      PermissionRoundTrip(p.permission, m[n]);
      var u :| u in us && u.id == p.userID && u.username == NameOf(us, p.userID);
      DocUserValid(u);
    }
    forall a, b | a in m && b in m && NormalizeUsername(a) == NormalizeUsername(b) ensures a == b {
      var u :| u in us && u.username == a;
      var v :| v in us && v.username == b;
      SameNormalized(us, u, v);
    }
  }

  lemma SameNormalized(us: seq<User>, u: User, v: User)
    requires ValidUsers(us) && u in us && v in us && NormalizeUsername(u.username) == NormalizeUsername(v.username)
    ensures u == v
  {
  }

  lemma ExportedShareValid(s: DocShare, us: seq<User>, item: ShareItem)
    requires ValidUsers(us) && ValidPermissions(item, us) && item.share.Valid() && ShareExported(s, us, item)
    ensures ValidDocShare(s) && ValidDocPermissions(s.permissions)
  {
    PlaceholderValid();
    ExportedPermissionsValid(s.permissions, us, item);
  }

  lemma ExportedTLSValid(d: Option<DocTLS>, tls: Option<TLSProfile>, ps: seq<Provider>)
    requires ValidTLS(tls, ps) && TLSExported(d, tls, ps)
    ensures d.Some? ==> PlaceholderProfile(d.value).Valid()
  {
    hide ValidHostname;
    hide IsAbsolutePath;
    PlaceholderValid();
  }

  lemma ExportedServerValid(s: ServerSettings)
    requires s.Valid()
    ensures PlaceholderSettings(DocServerOf(s)).Valid()
  {
  }

  lemma ExportedSharesValid(d: Document, x: State)
    requires ValidUsers(x.users) && ValidShares(x.shares) && ValidAccess(x.shares, x.users) && Exported(d, x)
    ensures (forall s :: s in d.shares ==> ValidDocShare(s) && ValidDocPermissions(s.permissions)) && Distinct(d.shares, DocSlug)
  {
    hide ValidDocShare;
    hide ValidDocPermissions;
    hide ValidPermissions;
    hide ShareExported;
    hide TLSExported;
    hide Share.Valid;
    hide User.Valid;
    AscendingDistinct(d.shares, DocShareKey);
    forall i, j | 0 <= i < j < |d.shares| ensures DocSlug(d.shares[i]) != DocSlug(d.shares[j]) {
      assert DocShareKey(d.shares[i]) != DocShareKey(d.shares[j]);
    }
    forall s | s in d.shares ensures ValidDocShare(s) && ValidDocPermissions(s.permissions) {
      var item :| item in x.shares && ShareExported(s, x.users, item);
      ExportedShareValid(s, x.users, item);
    }
  }

  /** The document of a valid state passes the document's own validation. */
  lemma ExportedValid(d: Document, x: State)
    requires Valid(x) && Exported(d, x)
    ensures ValidDocument(d)
  {
    hide ValidDocUser;
    hide ValidDocShare;
    hide ValidDocPermissions;
    hide ShareExported;
    hide TLSProfile.Valid;
    hide TLSExported;
    hide ServerSettings.Valid;
    hide ValidUsers;
    hide ValidShares;
    hide ValidAccess;
    hide ValidProviders;
    hide ValidTLS;
    hide SortBy;
    ExportedServerValid(x.settings);
    ExportedUsersValid(x.users);
    ExportedTLSValid(d.tls, x.tls, x.providers);
    ExportedSharesValid(d, x);
  }
}
