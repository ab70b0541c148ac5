/** The virtual collection served at the base path: validation and the PROPFIND listing. */
module Discovery {
  import opened Ordering
  import opened Domain
  import opened Snapshot
  import opened CaddyConfig
  import opened CompilerSpec
  import opened Compiler
  import opened Acl

  // ----- validation ------------------------------------------------------------------------

  predicate ValidBasePath(p: string) { CleanRooted(p) && !ContainsAny(p, "?#\\") }

  function SlugOf(e: Entry): string { e.slug }

  ghost predicate ValidEntries(entries: seq<Entry>) {
    (forall e :: e in entries ==> ValidSlug(e.slug) && e.name != "") && Distinct(entries, SlugOf)
  }

  ghost predicate ValidDiscovery(basePath: string, entries: map<string, seq<Entry>>) {
    && ValidBasePath(basePath)
    && forall n :: n in entries ==> n != "" && !ContainsControl(n) && ValidEntries(entries[n])
  }

  method ValidateEntries(entries: seq<Entry>) returns (ok: bool)
    ensures ok <==> ValidEntries(entries)
  {
    hide Seen;
    hide ValidSlug;
    var seen: set<string> := {};
    SeenNone(entries, SlugOf);
    for i := 0 to |entries|
      invariant Seen(seen, entries, i, SlugOf)
      invariant forall j :: 0 <= j < i ==> ValidSlug(entries[j].slug) && entries[j].name != ""
    {
      var e := entries[i];
      SeenStep(seen, entries, i, SlugOf);
      if !ValidSlug(e.slug) || e.name == "" || e.slug in seen { return false; }
      seen := seen + {e.slug};
    }
    SeenAll(seen, entries, SlugOf);
    return true;
  }

  method Validate(basePath: string, entries: map<string, seq<Entry>>) returns (ok: bool)
    ensures ok <==> ValidDiscovery(basePath, entries)
  {
    hide ValidEntries;
    if !ValidBasePath(basePath) { return false; }
    var rest := entries.Keys;
    while rest != {}
      invariant rest <= entries.Keys
      invariant forall n :: n in entries.Keys - rest ==> n != "" && !ContainsControl(n) && ValidEntries(entries[n])
    {
      var n :| n in rest;
      if n == "" || ContainsControl(n) { return false; }
      var entriesOk := ValidateEntries(entries[n]);
      if !entriesOk { return false; }
      rest := rest - {n};
    }
    return true;
  }

  /** The block the compiler emits is accepted by the handler's own validation. */
  lemma CompiledDiscoveryValid(x: State)
    requires Compilable(x)
    ensures ValidDiscovery(RootPath(x.settings.publicBasePath), EntriesFor(x.users, x.shares))
  {
    RootPathValid(x.settings.publicBasePath);
    var entries := EntriesFor(x.users, x.shares);
    forall n | n in entries ensures n != "" && !ContainsControl(n) && ValidEntries(entries[n]) {
      var a :| a in DiscoverySet(x.users, x.shares) && a.username == n;
      ReaderNamed(x, a);
      EntriesAreReadable(x, a);
      EntriesValid(x, a);
    }
  }

  lemma RootPathValid(base: string)
    requires ValidPublicBasePath(base)
    ensures ValidBasePath(RootPath(base))
  {
  }

  lemma ReaderNamed(x: State, a: Account)
    requires Compilable(x) && a in DiscoverySet(x.users, x.shares)
    ensures ValidUsername(a.username)
  {
  }

  lemma EntriesValid(x: State, a: Account)
    requires Compilable(x) && a in DiscoverySet(x.users, x.shares)
    ensures ValidEntries(Entries(x, a.username))
  {
    hide EntrySet;
    hide MayAccess;
    EntriesAreReadable(x, a);
    forall e | e in Entries(x, a.username) ensures ValidSlug(e.slug) && e.name != "" {
      var item :| item in x.shares && MayAccess(x, item, a, "GET") && e == Entry(item.share.slug, item.share.name);
      assert item.share.Valid();
    }
  }

  // ----- the multistatus body (section 13 of RFC 4918) -----------------------------------------

  const HEADER := "<?xml version=\"1.0\" encoding=\"utf-8\"?>\n<D:multistatus xmlns:D=\"DAV:\">"
  const OPEN := "<D:response><D:href>"
  const MIDDLE := "</D:href><D:propstat><D:prop><D:displayname>"
  const COLLECTION := "<D:collection/>"
  const STATUS := "</D:resourcetype></D:prop><D:status>HTTP/1.1 200 OK</D:status></D:propstat></D:response>"
  const CLOSE := "</D:displayname><D:resourcetype>" + COLLECTION + STATUS
  const FOOTER := "</D:multistatus>\n"

  /** The fixed text around the two variable parts of a response element. */
  datatype Markup = Markup(header: string, open: string, middle: string, close: string, footer: string)

  const MULTISTATUS := Markup(HEADER, OPEN, MIDDLE, CLOSE, FOOTER)

  function EscapeChar(c: char): string {
    match c
    case '&' => "&amp;"
    case '<' => "&lt;"
    case '>' => "&gt;"
    case '"' => "&quot;"
    case '\'' => "&apos;"
    case _ => [c]
  }

  function Escape(s: string): string {
    if |s| == 0 then "" else EscapeChar(s[0]) + Escape(s[1..])
  }

  method WriteXMLEscaped(builder: string, value: string) returns (r: string)
    ensures r == builder + Escape(value)
  {
    hide EscapeChar;
    r := builder;
    for i := 0 to |value|
      invariant r == builder + Escape(value[..i])
    {
      EscapeStep(value, i);
      r := r + EscapeChar(value[i]);
    }
    assert value[..|value|] == value;
  }

  lemma EscapeStep(value: string, i: nat)
    requires i < |value|
    ensures Escape(value[..i + 1]) == Escape(value[..i]) + EscapeChar(value[i])
  {
    hide EscapeChar;
    assert value[..i + 1] == value[..i] + [value[i]];
    EscapeConcat(value[..i], [value[i]]);
    assert Escape([value[i]]) == EscapeChar(value[i]) + Escape("");
  }

  lemma {:induction false} EscapeConcat(a: string, b: string)
    ensures Escape(a + b) == Escape(a) + Escape(b)
  {
    if |a| == 0 {
      assert a + b == b;
    } else {
      assert (a + b)[1..] == a[1..] + b;
      EscapeConcat(a[1..], b);
    }
  }

  function RootHref(basePath: string): string {
    if basePath == "/" then "/" else TrimSlash(basePath) + "/"
  }

  function EntryHref(basePath: string, slug: string): string { RootHref(basePath) + slug + "/" }

  datatype Resource = Resource(href: string, name: string)

  function Response(m: Markup, r: Resource): string {
    m.open + Escape(r.href) + m.middle + Escape(r.name) + m.close
  }

  function Responses(m: Markup, rs: seq<Resource>): string {
    if |rs| == 0 then "" else Response(m, rs[0]) + Responses(m, rs[1..])
  }

  /** What a listing describes: the root, then at depth 1 every entry. */
  function Resources(basePath: string, entries: seq<Entry>, includeEntries: bool): seq<Resource> {
    [Resource(RootHref(basePath), "WebDAV")] +
    (if includeEntries then seq(|entries|, i requires 0 <= i < |entries| =>
       Resource(EntryHref(basePath, entries[i].slug), entries[i].name)) else [])
  }

  method WritePropfindResponse(builder: string, href: string, displayName: string) returns (r: string)
    ensures r == builder + Response(MULTISTATUS, Resource(href, displayName))
  {
    hide OPEN;
    hide MIDDLE;
    hide Escape;
    hide COLLECTION;
    hide STATUS;
    hide HEADER;
    hide FOOTER;
    r := builder + OPEN;
    r := WriteXMLEscaped(r, href);
    r := r + MIDDLE;
    r := WriteXMLEscaped(r, displayName);
    r := r + "</D:displayname><D:resourcetype>" + COLLECTION + STATUS;
  }

  lemma {:induction false} ResponsesAppend(m: Markup, rs: seq<Resource>, r: Resource)
    ensures Responses(m, rs + [r]) == Responses(m, rs) + Response(m, r)
  {
    if |rs| == 0 {
      assert rs + [r] == [r];
      assert Responses(m, [r]) == Response(m, r) + Responses(m, []);
    } else {
      assert (rs + [r])[1..] == rs[1..] + [r];
      ResponsesAppend(m, rs[1..], r);
    }
  }

  /** One more response of a listing. */
  lemma ResponsesStep(m: Markup, all: seq<Resource>, i: nat)
    requires i < |all|
    ensures Responses(m, all[..i + 1]) == Responses(m, all[..i]) + Response(m, all[i])
  {
    assert all[..i + 1] == all[..i] + [all[i]];
    ResponsesAppend(m, all[..i], all[i]);
  }

  method PropfindListing(basePath: string, entries: seq<Entry>, includeEntries: bool) returns (body: string)
    ensures body == HEADER + Responses(MULTISTATUS, Resources(basePath, entries, includeEntries)) + FOOTER
  {
    hide Response;
    hide Responses;
    hide MULTISTATUS;
    hide HEADER;
    hide FOOTER;
    ghost var m, all := MULTISTATUS, Resources(basePath, entries, includeEntries);
    ResponsesStep(m, all, 0);
    NoResponses(m, all);
    body := HEADER;
    body := WritePropfindResponse(body, RootHref(basePath), "WebDAV");
    assert body == HEADER + Responses(m, all[..1]);
    if includeEntries {
      for i := 0 to |entries|
        invariant body == HEADER + Responses(m, all[..i + 1])
      {
        ResponsesStep(m, all, i + 1);
        body := WritePropfindResponse(body, EntryHref(basePath, entries[i].slug), entries[i].name);
      }
    }
    assert all[..|all|] == all;
    body := body + FOOTER;
  }

  lemma NoResponses(m: Markup, all: seq<Resource>)
    ensures Responses(m, all[..0]) == ""
  {
  }

  // ----- a client's decoder ------------------------------------------------------------------------

  /** Undoes the five XML entities; other text stands for itself. */
  function Unescape(s: string): Option<string> {
    if |s| == 0 then Some("")
    else if s[0] != '&' then
      var rest := Unescape(s[1..]);
      if rest.Some? then Some([s[0]] + rest.value) else None
    else
      var (c, n) := Entity(s);
      if n == 0 then None
      else
        var rest := Unescape(s[n..]);
        if rest.Some? then Some([c] + rest.value) else None
  }

  /** The character an entity at the start of s stands for, and the entity's length; 0 if there is none. */
  function Entity(s: string): (r: (char, nat))
    ensures r.1 <= |s|
  {
    if "&amp;" <= s then ('&', 5)
    else if "&lt;" <= s then ('<', 4)
    else if "&gt;" <= s then ('>', 4)
    else if "&quot;" <= s then ('"', 6)
    else if "&apos;" <= s then ('\'', 6)
    else (' ', 0)
  }

  /** Length of the character data before the next tag. */
  function TextLength(s: string): (n: nat)
    ensures n <= |s|
  {
    if |s| == 0 || s[0] == '<' then 0 else 1 + TextLength(s[1..])
  }

  function Strip(prefix: string, s: string): Option<string> {
    if prefix <= s then Some(s[|prefix|..]) else None
  }

  /** Character data, unescaped, and what follows it. */
  function ReadText(s: string): Option<(string, string)> {
    var n := TextLength(s);
    var text := Unescape(s[..n]);
    if text.Some? then Some((text.value, s[n..])) else None
  }

  function ReadResponse(m: Markup, s: string): Option<(Resource, string)> {
    var a := Strip(m.open, s);
    if a.None? then None else
    var href := ReadText(a.value);
    if href.None? then None else
    var b := Strip(m.middle, href.value.1);
    if b.None? then None else
    var name := ReadText(b.value);
    if name.None? then None else
    var c := Strip(m.close, name.value.1);
    if c.None? then None else Some((Resource(href.value.0, name.value.0), c.value))
  }

  function ReadResponses(m: Markup, s: string): Option<seq<Resource>>
    decreases |s|
  {
    if s == m.footer then Some([])
    else
      var first := ReadResponse(m, s);
      if first.None? || |first.value.1| >= |s| then None
      else
        var rest := ReadResponses(m, first.value.1);
        if rest.None? then None else Some([first.value.0] + rest.value)
  }

  function Decode(m: Markup, body: string): Option<seq<Resource>> {
    var s := Strip(m.header, body);
    if s.None? then None else ReadResponses(m, s.value)
  }

  // ----- decoding undoes printing ----------------------------------------------------------------------

  ghost predicate WellFormed(m: Markup) {
    && |m.open| > 1 && |m.footer| > 1 && m.open[1] != m.footer[1]
    && |m.middle| > 0 && m.middle[0] == '<' && |m.close| > 0 && m.close[0] == '<'
  }

  lemma EscapeCharProperties(c: char, rest: string)
    ensures '<' !in EscapeChar(c)
    ensures Unescape(EscapeChar(c) + rest) == (if Unescape(rest).Some? then Some([c] + Unescape(rest).value) else None)
  {
    var e := EscapeChar(c);
    var s := e + rest;
    assert s[|e|..] == rest;
    if c != '&' && c != '<' && c != '>' && c != '"' && c != '\'' {
      assert s[0] == c && s[1..] == rest;
    } else {
      assert e <= s && s[0] == '&' && s[1] == e[1] && s[2] == e[2] && s[3] == e[3];
      assert Entity(s) == (c, |e|);
    }
  }

  lemma {:induction false} EscapeRoundTrip(s: string)
    ensures '<' !in Escape(s)
    ensures Unescape(Escape(s)) == Some(s)
  {
    if |s| > 0 {
      EscapeRoundTrip(s[1..]);
      EscapeCharProperties(s[0], Escape(s[1..]));
      assert s == [s[0]] + s[1..];
    }
  }

  lemma {:induction false} TextLengthOf(text: string, rest: string)
    requires '<' !in text && |rest| > 0 && rest[0] == '<'
    ensures TextLength(text + rest) == |text|
  {
    if |text| == 0 {
      assert text + rest == rest;
    } else {
      assert (text + rest)[1..] == text[1..] + rest;
      TextLengthOf(text[1..], rest);
    }
  }

  lemma ReadEscaped(value: string, rest: string)
    requires |rest| > 0 && rest[0] == '<'
    ensures ReadText(Escape(value) + rest) == Some((value, rest))
  {
    var text := Escape(value);
    EscapeRoundTrip(value);
    TextLengthOf(text, rest);
    assert (text + rest)[..|text|] == text && (text + rest)[|text|..] == rest;
  }

  lemma StripPrefix(prefix: string, rest: string)
    ensures Strip(prefix, prefix + rest) == Some(rest)
  {
  }

  lemma ReadPrinted(m: Markup, r: Resource, rest: string)
    requires WellFormed(m)
    ensures ReadResponse(m, Response(m, r) + rest) == Some((r, rest))
  {
    hide Escape;
    hide ReadText;
    hide Strip;
    var c := m.close + rest;
    var b := Escape(r.name) + c;
    var n := m.middle + b;
    var a := Escape(r.href) + n;
    assert Response(m, r) + rest == m.open + a;
    StripPrefix(m.open, a);
    ReadEscaped(r.href, n);
    StripPrefix(m.middle, b);
    ReadEscaped(r.name, c);
    StripPrefix(m.close, rest);
  }

  lemma ResponseOpens(m: Markup, r: Resource)
    requires |m.open| > 1
    ensures |Response(m, r)| > 1 && Response(m, r)[1] == m.open[1]
  {
  }

  lemma {:induction false} ReadAllPrinted(m: Markup, rs: seq<Resource>)
    requires WellFormed(m)
    ensures ReadResponses(m, Responses(m, rs) + m.footer) == Some(rs)
  {
    hide Response;
    hide ReadResponse;
    if |rs| == 0 {
      assert "" + m.footer == m.footer;
    } else {
      var rest := Responses(m, rs[1..]) + m.footer;
      var s := Responses(m, rs) + m.footer;
      assert s == Response(m, rs[0]) + rest;
      ResponseOpens(m, rs[0]);
      ReadPrinted(m, rs[0], rest);
      ReadAllPrinted(m, rs[1..]);
      assert rs == [rs[0]] + rs[1..];
    }
  }

  /** The listing prints reversibly: a client recovers the root and every entry, in order, with names intact. */
  lemma ListingDecodes(basePath: string, entries: seq<Entry>, includeEntries: bool)
    ensures var rs := Resources(basePath, entries, includeEntries);
            Decode(MULTISTATUS, HEADER + Responses(MULTISTATUS, rs) + FOOTER) == Some(rs)
  {
    var m, rs := MULTISTATUS, Resources(basePath, entries, includeEntries);
    assert CLOSE[0] == "</D:displayname><D:resourcetype>"[0] == '<';
    assert WellFormed(m);
    ReadAllPrinted(m, rs);
    assert HEADER + Responses(m, rs) + FOOTER == m.header + (Responses(m, rs) + m.footer);
    StripPrefix(m.header, Responses(m, rs) + m.footer);
  }
}
