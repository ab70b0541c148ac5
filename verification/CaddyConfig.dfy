/** The generated Caddy configuration, and a small interpreter for its route lists. */
module CaddyConfig {
  import opened Ordering

  datatype Account = Account(username: string, password: string)

  datatype Entry = Entry(slug: string, name: string)

  /** Empty lists match everything, as an absent matcher field does. */
  datatype Matcher = Matcher(paths: seq<string>, methods: seq<string>, hosts: seq<string>)

  datatype Location = Location(host: string, port: Option<int>)

  datatype Handler =
    | Authentication(accounts: seq<Account>)
    | WebDAV(root: string, prefix: string)
    | Index(basePath: string, entries: map<string, seq<Entry>>)
    | StaticResponse(status: int, location: Option<Location>)

  datatype Route = Route(matcher: Matcher, handle: seq<Handler>, terminal: bool)

  datatype ConnectionPolicy = ConnectionPolicy(sni: Option<string>)

  datatype AutomaticHTTPS = Unset | Disabled | RedirectsDisabled

  datatype Server = Server(listen: int, routes: seq<Route>, policies: seq<ConnectionPolicy>, https: AutomaticHTTPS)

  datatype TLSApp =
    | InternalIssuer(subject: string)
    | DNSIssuer(subject: string, provider: map<string, string>)
    | LoadFiles(certificate: string, key: string)

  datatype Config = Config(
    httpPort: int, httpsPort: int, davdeck: Server, redirect: Option<Server>, tls: Option<TLSApp>, localCA: bool)

  // ----- serving a request -------------------------------------------------------------

  /** A request; credentials carry the account whose password the client proved to know. */
  datatype Request = Request(host: string, path: string, verb: string, credentials: Option<Account>)

  datatype Outcome =
    | NoRoute
    | Refused
    | ServedShare(root: string, prefix: string, user: Account)
    | ServedIndex(basePath: string, entries: seq<Entry>, user: Account)
    | Answered(status: int)

  /** A trailing star matches any continuation; anything else is literal. */
  predicate PathMatches(pattern: string, path: string) {
    if EndsWithStar(pattern) then pattern[..|pattern| - 1] <= path else pattern == path
  }

  predicate EndsWithStar(p: string) { |p| > 0 && p[|p| - 1] == '*' }

  /** A leading "*." stands for exactly one label. */
  predicate HostMatches(pattern: string, host: string) {
    || pattern == host
    || ("*." <= pattern && exists i :: 0 < i < |host| && '.' !in host[..i] && host[i..] == pattern[1..])
  }

  predicate Matches(m: Matcher, r: Request) {
    && (m.paths == [] || exists i :: 0 <= i < |m.paths| && PathMatches(m.paths[i], r.path))
    && (m.methods == [] || r.verb in m.methods)
    && (m.hosts == [] || exists i :: 0 <= i < |m.hosts| && HostMatches(m.hosts[i], r.host))
  }

  /** Runs a handler chain; user is the account authenticated so far. */
  function Run(handle: seq<Handler>, r: Request, user: Option<Account>): Outcome {
    if |handle| == 0 then NoRoute
    else match handle[0]
      case Authentication(accounts) =>
        if r.credentials.Some? && r.credentials.value in accounts then Run(handle[1..], r, r.credentials) else Refused
      case WebDAV(root, prefix) => if user.Some? then ServedShare(root, prefix, user.value) else Refused
      case Index(basePath, entries) =>
        if user.Some? && user.value.username in entries
        then ServedIndex(basePath, entries[user.value.username], user.value)
        else Refused
      case StaticResponse(status, _) => Answered(status)
  }

  /** The first matching route decides, unless its handlers end without an answer and it is not terminal. */
  function Serve(routes: seq<Route>, r: Request): Outcome {
    if |routes| == 0 then NoRoute
    else if !Matches(routes[0].matcher, r) then Serve(routes[1..], r)
    else
      var o := Run(routes[0].handle, r, None);
      if o.NoRoute? && !routes[0].terminal then Serve(routes[1..], r) else o
  }

  ghost predicate AnyMatches(routes: seq<Route>, r: Request) {
    exists i :: 0 <= i < |routes| && Matches(routes[i].matcher, r)
  }

  predicate Terminal(routes: seq<Route>) { forall i :: 0 <= i < |routes| ==> routes[i].terminal }

  lemma {:induction false} ServeConcat(a: seq<Route>, b: seq<Route>, r: Request)
    requires Terminal(a)
    ensures Serve(a + b, r) == if AnyMatches(a, r) then Serve(a, r) else Serve(b, r)
  {
    if |a| == 0 {
      assert a + b == b;
    } else {
      assert (a + b)[1..] == a[1..] + b;
      ServeConcat(a[1..], b, r);
      if AnyMatches(a, r) && !Matches(a[0].matcher, r) {
        var i :| 0 <= i < |a| && Matches(a[i].matcher, r);
        assert Matches(a[1..][i - 1].matcher, r);
      }
      if AnyMatches(a[1..], r) {
        var i :| 0 <= i < |a[1..]| && Matches(a[1..][i].matcher, r);
        assert Matches(a[i + 1].matcher, r);
      }
    }
  }
}
