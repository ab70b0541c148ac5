/** The emitted routes mean what the access-control list says. */
module Acl {
  import opened Ordering
  import opened Domain
  import opened Snapshot
  import opened CaddyConfig
  import opened CompilerSpec
  import opened Compiler

  // ----- the reference: access read off the permission rows ---------------------------

  /** An enabled user with these credentials holds a permission that suffices for the request method. */
  ghost predicate MayAccess(x: State, item: ShareItem, a: Account, verb: string) {
    && item.share.enabled
    && exists u, p :: u in x.users && p in item.permissions
         && u.enabled && u.username == a.username && u.passwordHash == a.password && p.userID == u.id
         && (p.permission.ReadWrite? || (p.permission.Read? && verb in READ_METHODS))
  }

  function SharePrefix(x: State, item: ShareItem): string {
    JoinPublicPath(x.settings.publicBasePath, item.share.slug)
  }

  predicate Under(prefix: string, path: string) { path == prefix || prefix + "/" <= path }

  ghost predicate HostManaged(x: State, host: string) {
    x.tls.Some? ==> HostMatches(x.tls.value.hostname, host)
  }

  lemma AccessIsGrant(x: State, item: ShareItem, a: Account, verb: string)
    requires ValidPermissions(item, x.users)
    ensures MayAccess(x, item, a, verb) <==>
            item.share.enabled && a in GrantSet(x.users, item.permissions, verb !in READ_METHODS)
  {
  }

  // ----- paths -----------------------------------------------------------------------------

  /** The part of every share path that precedes the slash before the slug. */
  function Stem(base: string): string { if base == "/" then "" else TrimSlash(base) }

  lemma PrefixShape(base: string, slug: string)
    ensures JoinPublicPath(base, slug) == Stem(base) + "/" + slug
  {
  }

  lemma UnderShape(stem: string, slug: string, path: string)
    requires Under(stem + "/" + slug, path)
    ensures var n := |stem| + 1;
            && |path| >= n + |slug| && path[..n] == stem + "/" && path[n..n + |slug|] == slug
            && (|path| == n + |slug| || path[n + |slug|] == '/')
  {
  }

  /** A path lies under at most one share. */
  lemma SlugUnique(base: string, s: string, t: string, path: string)
    requires ValidSlug(s) && ValidSlug(t)
    requires Under(JoinPublicPath(base, s), path) && Under(JoinPublicPath(base, t), path)
    ensures s == t
  {
    PrefixShape(base, s);
    PrefixShape(base, t);
    UnderShape(Stem(base), s, path);
    UnderShape(Stem(base), t, path);
  }

  lemma SharePathsMatch(base: string, slug: string, path: string)
    requires ValidSlug(slug)
    ensures var prefix := JoinPublicPath(base, slug); var paths := SharePaths(prefix);
            (exists i :: 0 <= i < |paths| && PathMatches(paths[i], path)) <==> Under(prefix, path)
  {
    PrefixShape(base, slug);
    var prefix := JoinPublicPath(base, slug);
    var paths := SharePaths(prefix);
    assert prefix[|prefix| - 1] == slug[|slug| - 1] && slug[|slug| - 1] != '*';
    var open := prefix + "/*";
    assert EndsWithStar(open) && open[..|open| - 1] == prefix + "/";
    assert paths[0] == prefix && paths[1] == open;
    assert PathMatches(paths[0], path) <==> path == prefix;
    assert PathMatches(paths[1], path) <==> prefix + "/" <= path;
  }

  lemma RootPathsMatch(base: string, path: string)
    requires CleanRooted(base) && !EndsWithStar(base)
    ensures var paths := RootPaths(RootPath(base));
            (exists i :: 0 <= i < |paths| && PathMatches(paths[i], path)) <==>
            (path == RootPath(base) || path == Stem(base) + "/")
  {
    var root := RootPath(base);
    var paths := RootPaths(root);
    assert base != "/" ==> base[|base| - 1] != '/';
    assert paths[0] == root && !EndsWithStar(root);
    assert PathMatches(paths[0], path) <==> path == root;
    if root != "/" {
      assert paths[1] == root + "/" && !EndsWithStar(paths[1]);
    }
  }

  /** The index never hides a share. */
  lemma RootNotUnder(base: string, slug: string, path: string)
    requires CleanRooted(base) && ValidSlug(slug)
    requires path == RootPath(base) || path == Stem(base) + "/"
    ensures !Under(JoinPublicPath(base, slug), path)
  {
  }

  // ----- one share --------------------------------------------------------------------------

  lemma HostsMatch(x: State, host: string)
    requires x.tls.Some? ==> x.tls.value.hostname != ""
    ensures var hosts := Hosts(Hostname(x));
            (hosts == [] || exists i :: 0 <= i < |hosts| && HostMatches(hosts[i], host)) <==> HostManaged(x, host)
  {
    var hosts := Hosts(Hostname(x));
    if x.tls.Some? {
      assert hosts[0] == x.tls.value.hostname;
    }
  }

  ghost function Admitted(x: State, item: ShareItem, r: Request): seq<Account> {
    AccountsFor(x.users, item, r.verb !in READ_METHODS)
  }

  lemma RouteMatches(x: State, item: ShareItem, r: Request, methods: seq<string>, accounts: seq<Account>)
    requires ValidSlug(item.share.slug) && HostManaged(x, r.host) && (x.tls.Some? ==> x.tls.value.hostname != "")
    ensures var prefix := SharePrefix(x, item);
            var route := PermissionRoute(SharePaths(prefix), methods, accounts, item.share.path, prefix, Hostname(x));
            && (Matches(route.matcher, r) <==> Under(prefix, r.path) && (methods == [] || r.verb in methods))
            && Run(route.handle, r, None) ==
               if r.credentials.Some? && r.credentials.value in accounts
               then ServedShare(item.share.path, prefix, r.credentials.value) else Refused
  {
    SharePathsMatch(x.settings.publicBasePath, item.share.slug, r.path);
    HostsMatch(x, r.host);
  }

  lemma WritersRead(us: seq<User>, item: ShareItem)
    ensures AccountsFor(us, item, false) == [] ==> AccountsFor(us, item, true) == []
  {
  }

  lemma ItemServe(x: State, item: ShareItem, r: Request)
    requires ValidSlug(item.share.slug) && HostManaged(x, r.host) && (x.tls.Some? ==> x.tls.value.hostname != "")
    ensures var routes := ItemRoutes(x, item);
            && (AnyMatches(routes, r) <==> Under(SharePrefix(x, item), r.path) && Admitted(x, item, r) != [])
            && (AnyMatches(routes, r) ==>
                  Serve(routes, r) == if r.credentials.Some? && r.credentials.value in Admitted(x, item, r)
                                      then ServedShare(item.share.path, SharePrefix(x, item), r.credentials.value) else Refused)
  {
    hide AccountsFor;
    hide Matches;
    hide Run;
    WritersRead(x.users, item);
    var read, write := AccountsFor(x.users, item, false), AccountsFor(x.users, item, true);
    RouteMatches(x, item, r, READ_METHODS, read);
    RouteMatches(x, item, r, [], write);
    var prefix := SharePrefix(x, item);
    var readRoute := PermissionRoute(SharePaths(prefix), READ_METHODS, read, item.share.path, prefix, Hostname(x));
    var writeRoute := PermissionRoute(SharePaths(prefix), [], write, item.share.path, prefix, Hostname(x));
    var routes := ItemRoutes(x, item);
    if read != [] && write != [] {
      assert routes == [readRoute, writeRoute];
      assert routes[0] == readRoute && routes[1] == writeRoute && routes[1..] == [writeRoute];
    } else if read != [] {
      assert routes == [readRoute] && routes[0] == readRoute;
    } else {
      assert routes == [];
    }
  }

  /** Every generated route is terminal. */
  lemma {:induction false} ShareRoutesTerminal(x: State, items: seq<ShareItem>)
    ensures Terminal(ShareRoutes(x, items))
  {
    hide AccountsFor;
    if |items| > 0 {
      ShareRoutesTerminal(x, items[..|items| - 1]);
      assert Terminal(ItemRoutes(x, items[|items| - 1]));
    }
  }

  lemma IndexRoutesTerminal(x: State)
    ensures Terminal(IndexRoutes(x))
  {
    hide DiscoverySet;
    hide EntriesFor;
  }

  // ----- all shares ---------------------------------------------------------------------------

  /** The hypotheses the routing lemmas share. */
  ghost predicate Routable(x: State, r: Request) {
    && HostManaged(x, r.host) && (x.tls.Some? ==> x.tls.value.hostname != "")
    && CleanRooted(x.settings.publicBasePath)
  }

  ghost predicate Slugged(items: seq<ShareItem>) {
    (forall i :: i in items ==> ValidSlug(i.share.slug)) && Distinct(items, ItemSlug)
  }

  ghost predicate Covers(x: State, item: ShareItem, r: Request) {
    item.share.enabled && Under(SharePrefix(x, item), r.path)
  }

  lemma CoversUnique(x: State, items: seq<ShareItem>, i: ShareItem, j: ShareItem, r: Request)
    requires Slugged(items) && i in items && j in items && Covers(x, i, r) && Covers(x, j, r)
    ensures i == j
  {
    SlugUnique(x.settings.publicBasePath, i.share.slug, j.share.slug, r.path);
    var a :| 0 <= a < |items| && items[a] == i;
    var b :| 0 <= b < |items| && items[b] == j;
    assert ItemSlug(items[a]) == ItemSlug(items[b]);
  }

  lemma {:induction false} SharesServe(x: State, items: seq<ShareItem>, r: Request)
    requires Routable(x, r) && Slugged(items)
    ensures forall item :: item in items && Covers(x, item, r) ==>
              && (AnyMatches(ShareRoutes(x, items), r) <==> AnyMatches(ItemRoutes(x, item), r))
              && Serve(ShareRoutes(x, items), r) == Serve(ItemRoutes(x, item), r)
    ensures (forall item :: item in items ==> !Covers(x, item, r)) ==> !AnyMatches(ShareRoutes(x, items), r)
  {
    hide ItemRoutes;
    hide Serve;
    if |items| > 0 {
      var n := |items| - 1;
      var last := items[n];
      var own := if last.share.enabled then ItemRoutes(x, last) else [];
      assert items == items[..n] + [last];
      assert forall i :: i in items[..n] ==> i in items;
      SharesServe(x, items[..n], r);
      ItemServe(x, last, r);
      ShareRoutesTerminal(x, items[..n]);
      ServeConcat(ShareRoutes(x, items[..n]), own, r);
      AnyMatchesConcat(ShareRoutes(x, items[..n]), own, r);
      NoMatchServe(ShareRoutes(x, items[..n]), r);
      NoMatchServe(own, r);
      forall item | item in items && Covers(x, item, r)
        ensures AnyMatches(ShareRoutes(x, items), r) <==> AnyMatches(ItemRoutes(x, item), r)
        ensures Serve(ShareRoutes(x, items), r) == Serve(ItemRoutes(x, item), r)
      {
        ItemServe(x, item, r);
        NoMatchServe(ItemRoutes(x, item), r);
        if item == last {
          forall other | other in items[..n] ensures !Covers(x, other, r) {
            if Covers(x, other, r) {
              CoversUnique(x, items, other, last, r);
              DistinctLast(items, other);
            }
          }
        } else {
          if Covers(x, last, r) { CoversUnique(x, items, item, last, r); }
        }
      }
    }
  }

  lemma DistinctLast(items: seq<ShareItem>, other: ShareItem)
    requires |items| > 0 && Distinct(items, ItemSlug) && other in items[..|items| - 1]
    ensures other != items[|items| - 1]
  {
  }

  lemma AnyMatchesConcat(a: seq<Route>, b: seq<Route>, r: Request)
    ensures AnyMatches(a + b, r) <==> AnyMatches(a, r) || AnyMatches(b, r)
  {
    hide Matches;
    if AnyMatches(a, r) {
      var i :| 0 <= i < |a| && Matches(a[i].matcher, r);
      assert (a + b)[i] == a[i];
    }
    if AnyMatches(b, r) {
      var i :| 0 <= i < |b| && Matches(b[i].matcher, r);
      assert (a + b)[|a| + i] == b[i];
    }
    if AnyMatches(a + b, r) {
      var i :| 0 <= i < |a + b| && Matches((a + b)[i].matcher, r);
      assert if i < |a| then Matches(a[i].matcher, r) else Matches(b[i - |a|].matcher, r);
    }
  }

  lemma {:induction false} NoMatchServe(routes: seq<Route>, r: Request)
    ensures !AnyMatches(routes, r) ==> Serve(routes, r) == NoRoute
  {
    if |routes| > 0 && !AnyMatches(routes, r) {
      assert !AnyMatches(routes[1..], r) by {
        forall i | 0 <= i < |routes[1..]| ensures !Matches(routes[1..][i].matcher, r) {
          assert routes[1..][i] == routes[i + 1];
        }
      }
      NoMatchServe(routes[1..], r);
    }
  }

  // ----- the index -------------------------------------------------------------------------------

  predicate AtRoot(x: State, path: string) {
    path == RootPath(x.settings.publicBasePath) || path == Stem(x.settings.publicBasePath) + "/"
  }

  /** A base path ending in a star would make the index's own pattern a wildcard. */
  ghost predicate Unshadowed(x: State) {
    !EndsWithStar(x.settings.publicBasePath) || DiscoverySet(x.users, x.shares) == {}
  }

  ghost function Entries(x: State, name: string): seq<Entry> {
    Listed(EntrySet(x.users, x.shares, name), EntryKey)
  }

  lemma IndexServe(x: State, r: Request)
    requires Routable(x, r) && Unshadowed(x)
    ensures var routes := IndexRoutes(x); var accounts := DiscoverySet(x.users, x.shares);
            && (AnyMatches(routes, r) <==> accounts != {} && AtRoot(x, r.path))
            && (AnyMatches(routes, r) ==>
                  Serve(routes, r) == if r.credentials.Some? && r.credentials.value in accounts
                                      then ServedIndex(RootPath(x.settings.publicBasePath),
                                                       Entries(x, r.credentials.value.username), r.credentials.value)
                                      else Refused)
  {
    hide DiscoverySet;
    hide EntrySet;
    hide PathMatches;
    hide HostMatches;
    var routes, accounts := IndexRoutes(x), DiscoverySet(x.users, x.shares);
    ListedProperties(accounts, AccountKey);
    if accounts != {} {
      var root := RootPath(x.settings.publicBasePath);
      var route := routes[0];
      RootPathsMatch(x.settings.publicBasePath, r.path);
      HostsMatch(x, r.host);
      assert Matches(route.matcher, r) <==> AtRoot(x, r.path);
      IndexRun(x, r);
      assert Serve(routes, r) == if Matches(route.matcher, r) then Run(route.handle, r, None) else Serve(routes[1..], r);
    }
  }

  lemma IndexRun(x: State, r: Request)
    requires DiscoverySet(x.users, x.shares) != {}
    ensures Run(IndexRoutes(x)[0].handle, r, None) ==
            if r.credentials.Some? && r.credentials.value in DiscoverySet(x.users, x.shares)
            then ServedIndex(RootPath(x.settings.publicBasePath),
                             Entries(x, r.credentials.value.username), r.credentials.value)
            else Refused
  {
    hide DiscoverySet;
    hide EntrySet;
    var accounts := DiscoverySet(x.users, x.shares);
    ListedProperties(accounts, AccountKey);
    var route := IndexRoutes(x)[0];
    var index := Index(RootPath(x.settings.publicBasePath), EntriesFor(x.users, x.shares));
    assert route.handle[0] == Authentication(Listed(accounts, AccountKey)) && route.handle[1..] == [index];
    if r.credentials.Some? && r.credentials.value in accounts {
      assert r.credentials.value.username in EntriesFor(x.users, x.shares);
      assert Run(route.handle, r, None) == Run([index], r, r.credentials);
    }
  }

  lemma FallbackServe(x: State, r: Request)
    ensures !Serve(FallbackRoutes(x), r).ServedShare? && !Serve(FallbackRoutes(x), r).ServedIndex?
  {
  }

  // ----- the theorems --------------------------------------------------------------------------------

  lemma CompilableRoutable(x: State, r: Request)
    requires Compilable(x) && HostManaged(x, r.host)
    ensures Routable(x, r) && Slugged(x.shares) && Slugged(SortBy(x.shares, ItemKey))
    ensures forall i :: i in SortBy(x.shares, ItemKey) <==> i in x.shares
  {
    SortElements(x.shares, ItemKey);
    SortDistinct(x.shares, ItemKey, ItemSlug);
  }

  /** A request for a path of a share is decided by that share's routes alone. */
  lemma CoveredServe(x: State, item: ShareItem, r: Request)
    requires Compilable(x) && HostManaged(x, r.host) && Unshadowed(x)
    requires item in x.shares && Covers(x, item, r)
    ensures var o := Serve(AllRoutes(x), r);
            if r.credentials.Some? && MayAccess(x, item, r.credentials.value, r.verb)
            then o == ServedShare(item.share.path, SharePrefix(x, item), r.credentials.value)
            else o == if Admitted(x, item, r) != [] then Refused else Serve(FallbackRoutes(x), r)
  {
    hide IndexRoutes;
    hide ShareRoutes;
    hide ItemRoutes;
    hide FallbackRoutes;
    hide MayAccess;
    hide SortBy;
    var sorted := SortBy(x.shares, ItemKey);
    CompilableRoutable(x, r);
    IndexServe(x, r);
    if AtRoot(x, r.path) { RootNotUnder(x.settings.publicBasePath, item.share.slug, r.path); }
    SharesServe(x, sorted, r);
    ItemServe(x, item, r);
    IndexRoutesTerminal(x);
    ShareRoutesTerminal(x, sorted);
    ServeConcat(IndexRoutes(x) + ShareRoutes(x, sorted), FallbackRoutes(x), r);
    ServeConcat(IndexRoutes(x), ShareRoutes(x, sorted), r);
    AnyMatchesConcat(IndexRoutes(x), ShareRoutes(x, sorted), r);
    ListedProperties(GrantSet(x.users, item.permissions, r.verb !in READ_METHODS), AccountKey);
    if r.credentials.Some? { AccessIsGrant(x, item, r.credentials.value, r.verb); }
  }

  lemma UncoveredServe(x: State, r: Request)
    requires Compilable(x) && HostManaged(x, r.host) && Unshadowed(x)
    requires forall item :: item in x.shares ==> !Covers(x, item, r)
    ensures Serve(AllRoutes(x), r) ==
            if AnyMatches(IndexRoutes(x), r) then Serve(IndexRoutes(x), r) else Serve(FallbackRoutes(x), r)
  {
    hide IndexRoutes;
    hide ShareRoutes;
    hide FallbackRoutes;
    hide SortBy;
    hide Covers;
    var sorted := SortBy(x.shares, ItemKey);
    CompilableRoutable(x, r);
    SharesServe(x, sorted, r);
    IndexRoutesTerminal(x);
    ShareRoutesTerminal(x, sorted);
    ServeConcat(IndexRoutes(x) + ShareRoutes(x, sorted), FallbackRoutes(x), r);
    ServeConcat(IndexRoutes(x), ShareRoutes(x, sorted), r);
    AnyMatchesConcat(IndexRoutes(x), ShareRoutes(x, sorted), r);
  }

  /** What the access-control list says about one request and one possible answer. */
  ghost predicate AclServes(x: State, r: Request, root: string, prefix: string, a: Account) {
    && r.credentials == Some(a)
    && exists item :: item in x.shares && Under(SharePrefix(x, item), r.path)
         && MayAccess(x, item, a, r.verb) && root == item.share.path && prefix == SharePrefix(x, item)
  }

  /** Meaning preservation.  On every request for a managed host, the compiled routes reach a WebDAV
      handler exactly when the access-control list lets the client use a share that the path lies under,
      and then it is that share's root and prefix. */
  lemma RoutesMeanTheAcl(x: State, r: Request, root: string, prefix: string, a: Account)
    requires Compilable(x) && HostManaged(x, r.host) && Unshadowed(x)
    ensures Serve(Compiled(x).json.davdeck.routes, r) == ServedShare(root, prefix, a) <==> AclServes(x, r, root, prefix, a)
  {
    hide AllRoutes;
    hide Serve;
    hide Unshadowed;
    if item :| item in x.shares && Covers(x, item, r) {
      CoveredServe(x, item, r);
      FallbackServe(x, r);
      forall other | other in x.shares && Covers(x, other, r) ensures other == item {
        CompilableRoutable(x, r);
        CoversUnique(x, x.shares, item, other, r);
      }
    } else {
      UncoveredServe(x, r);
      CompilableRoutable(x, r);
      IndexServe(x, r);
      FallbackServe(x, r);
    }
  }

  /** A base path ending in a star: the index route, which comes first, swallows every share. */
  lemma ShadowedShare(x: State) returns (r: Request, item: ShareItem, a: Account)
    requires Compilable(x) && !Unshadowed(x)
    ensures HostManaged(x, r.host) && item in x.shares
    ensures AclServes(x, r, item.share.path, SharePrefix(x, item), a)
    ensures !Serve(Compiled(x).json.davdeck.routes, r).ServedShare?
  {
    hide MayAccess;
    hide Serve;
    hide AllRoutes;
    hide IndexRoutes;
    hide DiscoverySet;
    hide SharePrefix;
    item, a := ReadableShare(x);
    r := Request(Hostname(x), SharePrefix(x, item), "GET", Some(a));
    CompilableRoutable(x, r);
    assert Under(SharePrefix(x, item), r.path);
    hide Compilable;
    hide Under;
    IndexShadows(x, item, r);
    ServeShadowed(x, r);
  }

  lemma ReadableShare(x: State) returns (item: ShareItem, a: Account)
    requires Compilable(x) && DiscoverySet(x.users, x.shares) != {}
    ensures item in x.shares && MayAccess(x, item, a, "GET")
  {
    a :| a in DiscoverySet(x.users, x.shares);
    ReaderInSet(x, a);
    item :| item in x.shares && MayAccess(x, item, a, "GET");
  }

  lemma IndexShadows(x: State, item: ShareItem, r: Request)
    requires Routable(x, r) && EndsWithStar(x.settings.publicBasePath) && DiscoverySet(x.users, x.shares) != {}
    requires r.path == SharePrefix(x, item)
    ensures Matches(IndexRoutes(x)[0].matcher, r)
  {
    hide DiscoverySet;
    hide PathMatches;
    var base := x.settings.publicBasePath;
    ShadowingPattern(base, item.share.slug);
    var paths := IndexRoutes(x)[0].matcher.paths;
    assert paths[0] == base && PathMatches(paths[0], r.path);
    HostsMatch(x, r.host);
  }

  lemma ShadowingPattern(base: string, slug: string)
    requires CleanRooted(base) && EndsWithStar(base)
    ensures RootPath(base) == base && PathMatches(base, JoinPublicPath(base, slug))
  {
  }

  lemma ServeShadowed(x: State, r: Request)
    requires DiscoverySet(x.users, x.shares) != {} && Matches(IndexRoutes(x)[0].matcher, r)
    ensures !Serve(AllRoutes(x), r).ServedShare?
  {
    hide Matches;
    IndexRun(x, r);
    assert AllRoutes(x)[0] == IndexRoutes(x)[0];
  }

  /** Exactly when the compiled configuration means the access-control list. */
  lemma FaithfulExactly(x: State)
    requires Compilable(x)
    ensures (forall r: Request, root: string, prefix: string, a: Account :: HostManaged(x, r.host) ==>
               (Serve(Compiled(x).json.davdeck.routes, r) == ServedShare(root, prefix, a) <==> AclServes(x, r, root, prefix, a)))
            <==> Unshadowed(x)
  {
    hide Compilable;
    hide Serve;
    hide AclServes;
    hide Unshadowed;
    hide HostManaged;
    if Unshadowed(x) {
      forall r: Request, root: string, prefix: string, a: Account | HostManaged(x, r.host)
        ensures Serve(Compiled(x).json.davdeck.routes, r) == ServedShare(root, prefix, a) <==> AclServes(x, r, root, prefix, a)
      {
        RoutesMeanTheAcl(x, r, root, prefix, a);
      }
    } else {
      var r, item, a := ShadowedShare(x);
      assert Serve(Compiled(x).json.davdeck.routes, r) != ServedShare(item.share.path, SharePrefix(x, item), a);
    }
  }

  /** Discovery agrees with the list: the index answers at the base path, to exactly the clients who may
      read some share, and lists exactly the shares each may read. */
  lemma IndexMeansTheAcl(x: State, r: Request, base: string, entries: seq<Entry>, a: Account)
    requires Compilable(x) && HostManaged(x, r.host) && Unshadowed(x)
    ensures Serve(Compiled(x).json.davdeck.routes, r) == ServedIndex(base, entries, a) <==>
            && r.credentials == Some(a) && AtRoot(x, r.path)
            && (exists item :: item in x.shares && MayAccess(x, item, a, "GET"))
            && base == RootPath(x.settings.publicBasePath) && entries == Entries(x, a.username)
  {
    hide AllRoutes;
    hide Serve;
    hide IndexRoutes;
    hide FallbackRoutes;
    CompilableRoutable(x, r);
    FallbackServe(x, r);
    ReaderInSet(x, a);
    if item :| item in x.shares && Covers(x, item, r) {
      CoveredServe(x, item, r);
      if AtRoot(x, r.path) { RootNotUnder(x.settings.publicBasePath, item.share.slug, r.path); }
    } else {
      UncoveredServe(x, r);
      IndexServe(x, r);
    }
  }

  lemma ReaderInSet(x: State, a: Account)
    requires Compilable(x)
    ensures a in DiscoverySet(x.users, x.shares) <==> exists item :: item in x.shares && MayAccess(x, item, a, "GET")
  {
    assert READ_METHODS[0] == "GET";
    forall item | item in x.shares && item.share.enabled
      ensures MayAccess(x, item, a, "GET") <==> a in GrantSet(x.users, item.permissions, false) {
      AccessIsGrant(x, item, a, "GET");
    }
  }

  /** What an index lists for a client: the enabled shares they may read, once each, in slug order. */
  lemma EntriesAreReadable(x: State, a: Account)
    requires Compilable(x) && a in DiscoverySet(x.users, x.shares)
    ensures Ascending(Entries(x, a.username), EntryKey)
    ensures forall e :: e in Entries(x, a.username) <==>
              exists item :: item in x.shares && MayAccess(x, item, a, "GET") && e == Entry(item.share.slug, item.share.name)
    ensures forall i, j :: 0 <= i < j < |Entries(x, a.username)| ==>
              Entries(x, a.username)[i].slug != Entries(x, a.username)[j].slug
  {
    hide Compilable;
    hide EntrySet;
    hide MayAccess;
    var set', entries := EntrySet(x.users, x.shares, a.username), Entries(x, a.username);
    ListedProperties(set', EntryKey);
    ReadableSet(x, a);
    assert Keyed(set', EntryKey);
    forall i, j | 0 <= i < j < |entries| ensures entries[i].slug != entries[j].slug {
      assert entries[i] in set' && entries[j] in set';
      AscendingDistinct(entries, EntryKey);
      assert EntryKey(entries[i]) != EntryKey(entries[j]);
    }
  }

  lemma ReadableSet(x: State, a: Account)
    requires Compilable(x) && a in DiscoverySet(x.users, x.shares)
    ensures forall e :: e in EntrySet(x.users, x.shares, a.username) <==>
              exists item :: item in x.shares && MayAccess(x, item, a, "GET") && e == Entry(item.share.slug, item.share.name)
    ensures forall d, e :: (d in EntrySet(x.users, x.shares, a.username) && e in EntrySet(x.users, x.shares, a.username)
                            && d.slug == e.slug) ==> d == e
  {
    hide MayAccess;
    hide Reads;
    forall item | item in x.shares ensures Reads(x.users, item, a.username) <==> MayAccess(x, item, a, "GET") {
      ReaderByName(x, item, a);
    }
    forall d, e | d in EntrySet(x.users, x.shares, a.username) && e in EntrySet(x.users, x.shares, a.username) && d.slug == e.slug
      ensures d == e
    {
      EntrySlugs(x, a.username, d, e);
    }
  }

  lemma EntrySlugs(x: State, name: string, d: Entry, e: Entry)
    requires ValidShares(x.shares)
    requires d in EntrySet(x.users, x.shares, name) && e in EntrySet(x.users, x.shares, name) && d.slug == e.slug
    ensures d == e
  {
  }

  lemma ReaderByName(x: State, item: ShareItem, a: Account)
    requires Compilable(x) && item in x.shares && a in DiscoverySet(x.users, x.shares)
    ensures Reads(x.users, item, a.username) <==> MayAccess(x, item, a, "GET")
  {
    assert READ_METHODS[0] == "GET";
    ValidUsersSound(x.users);
    if item.share.enabled {
      AccessIsGrant(x, item, a, "GET");
      if Reads(x.users, item, a.username) {
        var b :| b in GrantSet(x.users, item.permissions, false) && b.username == a.username;
        DiscoverySetKeyed(x.users, x.shares);
        assert b in DiscoverySet(x.users, x.shares) && AccountKey(a) == AccountKey(b);
      }
    }
  }
}
