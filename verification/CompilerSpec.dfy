/** What the compiler must produce, stated over sets: who may do what, and the configuration that says so. */
module CompilerSpec {
  import opened Ordering
  import opened Domain
  import opened Snapshot
  import opened CaddyConfig
  import Identity
  import Registry

  const READ_METHODS := ["GET", "HEAD", "OPTIONS", "PROPFIND"]

  type ConfigHash = Identity.Digest<Config>

  datatype CompiledConfig = CompiledConfig(json: Config, sha256: ConfigHash, warnings: seq<string>)

  function AccountKey(a: Account): Key { Key(a.username, "") }
  function EntryKey(e: Entry): Key { Key(e.slug, e.name) }

  // ----- specification: who may do what --------------------------------------------------

  predicate Grants(u: User, p: SharePermission, write: bool) {
    && p.userID == u.id && u.enabled
    && if write then p.permission.ReadWrite? else p.permission != NoAccess
  }

  function AccountOf(u: User): Account { Account(u.username, u.passwordHash) }

  /** The accounts a permission list admits. */
  ghost function GrantSet(us: seq<User>, ps: seq<SharePermission>, write: bool): set<Account>
  {
    set u, p | u in us && p in ps && Grants(u, p, write) :: AccountOf(u)
  }

  ghost function AccountsFor(us: seq<User>, item: ShareItem, write: bool): seq<Account> {
    Listed(GrantSet(us, item.permissions, write), AccountKey)
  }

  /** An enabled share that a user of this name may read. */
  ghost predicate Reads(us: seq<User>, item: ShareItem, name: string) {
    item.share.enabled && exists a :: a in GrantSet(us, item.permissions, false) && a.username == name
  }

  ghost function DiscoverySet(us: seq<User>, items: seq<ShareItem>): set<Account>
  {
    set item, a | item in items && item.share.enabled && a in GrantSet(us, item.permissions, false) :: a
  }

  function EntryOf(item: ShareItem): Entry { Entry(item.share.slug, item.share.name) }

  ghost function EntrySet(us: seq<User>, items: seq<ShareItem>, name: string): set<Entry>
  {
    set item | item in items && Reads(us, item, name) :: EntryOf(item)
  }

  ghost function EntriesFor(us: seq<User>, items: seq<ShareItem>): map<string, seq<Entry>> {
    map n | n in (set a | a in DiscoverySet(us, items) :: a.username) :: Listed(EntrySet(us, items, n), EntryKey)
  }

  // ----- specification: the configuration ---------------------------------------------------

  function TrimSlash(p: string): string {
    if |p| > 0 && p[|p| - 1] == '/' then p[..|p| - 1] else p
  }

  function JoinPublicPath(base: string, child: string): string {
    if base == "/" then "/" + child else TrimSlash(base) + "/" + child
  }

  function RootPath(base: string): string {
    if TrimSlash(base) == "" then "/" else TrimSlash(base)
  }

  function Hosts(hostname: string): seq<string> { if hostname != "" then [hostname] else [] }

  function PermissionRoute(paths: seq<string>, methods: seq<string>, accounts: seq<Account>,
                           root: string, prefix: string, hostname: string): Route {
    Route(Matcher(paths, methods, Hosts(hostname)), [Authentication(accounts), WebDAV(root, prefix)], true)
  }

  function DiscoveryRoute(paths: seq<string>, accounts: seq<Account>, entries: map<string, seq<Entry>>,
                          basePath: string, hostname: string): Route {
    Route(Matcher(paths, [], Hosts(hostname)), [Authentication(accounts), Index(basePath, entries)], true)
  }

  function RootPaths(root: string): seq<string> { if root != "/" then [root, root + "/"] else [root] }

  function SharePaths(prefix: string): seq<string> { [prefix, prefix + "/*"] }

  function Hostname(x: State): string { if x.tls.Some? then x.tls.value.hostname else "" }

  ghost function ItemRoutes(x: State, item: ShareItem): seq<Route> {
    var read, write := AccountsFor(x.users, item, false), AccountsFor(x.users, item, true);
    var prefix := JoinPublicPath(x.settings.publicBasePath, item.share.slug);
    (if read != [] then [PermissionRoute(SharePaths(prefix), READ_METHODS, read, item.share.path, prefix, Hostname(x))] else []) +
    (if write != [] then [PermissionRoute(SharePaths(prefix), [], write, item.share.path, prefix, Hostname(x))] else [])
  }

  ghost function ShareRoutes(x: State, items: seq<ShareItem>): seq<Route> {
    if |items| == 0 then []
    else
      var last := items[|items| - 1];
      ShareRoutes(x, items[..|items| - 1]) + (if last.share.enabled then ItemRoutes(x, last) else [])
  }

  ghost function Warnings(x: State, items: seq<ShareItem>): seq<string> {
    if |items| == 0 then []
    else
      var last := items[|items| - 1];
      Warnings(x, items[..|items| - 1]) +
      (if last.share.enabled && AccountsFor(x.users, last, false) == [] then [last.share.slug] else [])
  }

  ghost function IndexRoutes(x: State): seq<Route> {
    var accounts := DiscoverySet(x.users, x.shares);
    var root := RootPath(x.settings.publicBasePath);
    if accounts == {} then []
    else [DiscoveryRoute(RootPaths(root), Listed(accounts, AccountKey), EntriesFor(x.users, x.shares), root, Hostname(x))]
  }

  function FallbackRoutes(x: State): seq<Route> {
    if x.tls.Some? then [Route(Matcher([], [], [x.tls.value.hostname]), [StaticResponse(404, None)], true)] else []
  }

  ghost function AllRoutes(x: State): seq<Route> {
    IndexRoutes(x) + ShareRoutes(x, SortBy(x.shares, ItemKey)) + FallbackRoutes(x)
  }

  /** net.ParseIP on a name that holds no colon: four decimal numbers without leading zeros. */
  predicate IsIPv4(h: string) {
    var parts := Split(h, '.');
    |parts| == 4 && forall i :: 0 <= i < 4 ==> IsOctet(parts[i])
  }

  predicate IsOctet(s: string) {
    && 1 <= |s| <= 3 && (forall i :: 0 <= i < |s| ==> IsDigit(s[i])) && (|s| > 1 ==> s[0] != '0')
    && (|s| == 3 ==> s[0] == '1' || (s[0] == '2' && (s[1] < '5' || (s[1] == '5' && s[2] <= '5'))))
  }

  ghost function KindOf(ps: seq<Provider>, id: ID): ProviderType
    requires KnownProvider(ps, id)
  {
    var p :| p in ps && p.id == id; p.kind
  }

  /** The provider credential that a DNS challenge needs, if any. */
  function NeededProvider(tls: Option<TLSProfile>): Option<ID> {
    if tls.Some? && tls.value.mode.Automatic? && tls.value.challenge.Dns? then tls.value.providerID else None
  }

  ghost function CompiledTLS(x: State): Option<TLSApp>
    requires TLSCompiles(x)
  {
    if x.tls.None? then None
    else
      var p := x.tls.value;
      match p.mode
      case Internal => Some(InternalIssuer(p.hostname))
      case Custom => Some(LoadFiles(p.certificatePath, p.privateKeyPath))
      case Automatic =>
        if NeededProvider(x.tls).None? then None
        else
          var id := NeededProvider(x.tls).value;
          Some(DNSIssuer(p.hostname, Registry.ProviderBlock(Registry.For(KindOf(x.providers, id)).value, id)))
      case UnknownTLSMode(_) => None
  }

  function Policies(x: State): seq<ConnectionPolicy> {
    if x.tls.Some? && x.tls.value.mode.Custom?
    then [ConnectionPolicy(if IsIPv4(x.tls.value.hostname) then None else Some(x.tls.value.hostname))]
    else []
  }

  ghost predicate TLSCompiles(x: State) {
    x.tls.Some? ==>
      && x.tls.value.Valid()
      && (NeededProvider(x.tls).Some? ==>
            var id := NeededProvider(x.tls).value;
            KnownProvider(x.providers, id) && Registry.For(KindOf(x.providers, id)).Some?)
  }

  /** The inputs Compile accepts. */
  ghost predicate Compilable(x: State) {
    && x.settings.Valid() && TLSCompiles(x)
    && (forall p :: p in x.providers ==> p.Valid()) && Distinct(x.providers, ProviderID)
    && ValidUsers(x.users) && ValidShares(x.shares)
    && (forall item :: item in x.shares && item.share.enabled ==> ValidPermissions(item, x.users))
  }

  function RedirectServer(x: State): Option<Server> {
    if x.tls.None? then None
    else
      var host, port := x.tls.value.hostname, x.settings.httpsPort;
      var location := Location(host, if port != 443 then Some(port) else None);
      Some(Server(x.settings.httpPort,
                  [Route(Matcher([], [], [host]), [StaticResponse(308, Some(location))], true)], [], Disabled))
  }

  ghost function CompiledServers(x: State): Config
    requires Compilable(x)
  {
    var listen := if x.tls.Some? then x.settings.httpsPort else x.settings.httpPort;
    Config(x.settings.httpPort, x.settings.httpsPort,
           Server(listen, AllRoutes(x), Policies(x), if x.tls.Some? then RedirectsDisabled else Unset),
           RedirectServer(x), CompiledTLS(x), x.tls.Some? && x.tls.value.mode.Internal?)
  }

  ghost function Compiled(x: State): CompiledConfig
    requires Compilable(x)
  {
    CompiledConfig(CompiledServers(x), Identity.Sha256(CompiledServers(x)), Warnings(x, SortBy(x.shares, ItemKey)))
  }
}
