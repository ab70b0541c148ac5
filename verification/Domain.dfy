/** The entities of package domain and what each one's Validate accepts. */
module Domain {
  import opened Ordering

  // ----- text ----------------------------------------------------------------

  /** unicode.IsControl: category Cc. */
  predicate IsControl(c: char) {
    c < ' ' || '\U{7f}' <= c <= '\U{9f}'
  }

  /** unicode.IsSpace. */
  predicate IsSpace(c: char) {
    || '\t' <= c <= '\r' || c == ' ' || c == '\U{85}' || c == '\U{a0}' || c == '\U{1680}'
    || '\U{2000}' <= c <= '\U{200a}' || c == '\U{2028}' || c == '\U{2029}'
    || c == '\U{202f}' || c == '\U{205f}' || c == '\U{3000}'
  }

  predicate IsDigit(c: char) { '0' <= c <= '9' }
  predicate IsLowerLetter(c: char) { 'a' <= c <= 'z' }
  predicate IsUpperLetter(c: char) { 'A' <= c <= 'Z' }

  function LowerChar(c: char): char {
    if IsUpperLetter(c) then 'a' + (c - 'A') else c
  }

  function UpperChar(c: char): char {
    if IsLowerLetter(c) then 'A' + (c - 'a') else c
  }

  function ToLower(s: string): string { Map(LowerChar, s) }
  function ToUpper(s: string): string { Map(UpperChar, s) }

  function TrimSpace(s: string): string {
    if |s| == 0 then s
    else if IsSpace(s[0]) then TrimSpace(s[1..])
    else if IsSpace(s[|s| - 1]) then TrimSpace(s[..|s| - 1])
    else s
  }

  predicate ContainsControl(s: string) {
    exists i :: 0 <= i < |s| && IsControl(s[i])
  }

  predicate ContainsAny(s: string, chars: string) {
    exists i :: 0 <= i < |s| && s[i] in chars
  }

  /** Length in bytes of the UTF-8 form. */
  function ByteLength(s: string): nat {
    if |s| == 0 then 0
    else
      ByteLength(s[1..])
      + (if s[0] < '\U{80}' then 1 else if s[0] < '\U{800}' then 2 else if s[0] < '\U{10000}' then 3 else 4)
  }

  function Split(s: string, separator: char): (r: seq<string>)
    ensures |r| > 0
  {
    if |s| == 0 then [""]
    else
      var rest := Split(s[1..], separator);
      if s[0] == separator then [""] + rest
      else [[s[0]] + rest[0]] + rest[1..]
  }

  /** path.Clean leaves p unchanged, for p whose first separator starts or follows a plain segment:
      every '/' is followed by a segment that is neither empty, "." nor "..". */
  predicate CleanSegments(p: string) {
    forall i :: 0 <= i < |p| && p[i] == '/' ==>
      && i + 1 < |p| && p[i + 1] != '/'
      && !(p[i + 1] == '.' && (i + 2 == |p| || p[i + 2] == '/'))
      && !(p[i + 1] == '.' && i + 2 < |p| && p[i + 2] == '.' && (i + 3 == |p| || p[i + 3] == '/'))
  }

  predicate CleanRooted(p: string) {
    |p| > 0 && p[0] == '/' && (p == "/" || CleanSegments(p))
  }

  // ----- identifiers and times -------------------------------------------------

  /** A canonical lowercase UUID (section 3 of RFC 4122). */
  type ID = string

  predicate HyphenPosition(i: int) { i == 8 || i == 13 || i == 18 || i == 23 }

  predicate IsHex(c: char) { IsDigit(c) || 'a' <= c <= 'f' }

  predicate ValidID(id: ID) {
    && |id| == 36
    && forall i :: 0 <= i < 36 ==> if HyphenPosition(i) then id[i] == '-' else IsHex(id[i])
  }

  /** Nanoseconds on a UTC clock; 0 is Go's zero time, which is never valid. */
  type Timestamp = int

  predicate ValidTimeRange(created: Timestamp, updated: Timestamp) {
    created != 0 && updated != 0 && created <= updated
  }

  // ----- server settings ---------------------------------------------------------

  datatype RuntimeMode = Portable | Service | UnknownMode(text: string)

  datatype ServerSettings = ServerSettings(
    id: ID, publicBasePath: string, httpPort: int, httpsPort: int,
    runtimeMode: RuntimeMode, createdAt: Timestamp, updatedAt: Timestamp)
  {
    predicate Valid() {
      && ValidID(id) && ValidPublicBasePath(publicBasePath)
      && ValidPort(httpPort) && ValidPort(httpsPort) && httpPort != httpsPort
      && !runtimeMode.UnknownMode? && ValidTimeRange(createdAt, updatedAt)
    }
  }

  predicate ValidPublicBasePath(p: string) {
    CleanRooted(p) && !ContainsAny(p, "?#\\") && !ContainsControl(p)
  }

  predicate ValidPort(port: int) { 1 <= port <= 65535 }

  // ----- users ---------------------------------------------------------------------

  datatype User = User(
    id: ID, username: string, normalized: string, passwordHash: string,
    enabled: bool, createdAt: Timestamp, updatedAt: Timestamp)
  {
    predicate Valid() {
      && ValidID(id) && ValidUsername(username)
      && normalized == NormalizeUsername(username)
      && TrimSpace(passwordHash) != "" && !ContainsControl(passwordHash)
      && ValidTimeRange(createdAt, updatedAt)
    }
  }

  predicate ValidUsername(name: string) {
    name != "" && name == TrimSpace(name) && !ContainsControl(name)
  }

  function NormalizeUsername(name: string): string {
    ToLower(TrimSpace(name))
  }

  // ----- shares and permissions ------------------------------------------------------

  datatype Share = Share(
    id: ID, name: string, slug: string, path: string,
    enabled: bool, createdAt: Timestamp, updatedAt: Timestamp)
  {
    predicate Valid() {
      && ValidID(id)
      && name != "" && name == TrimSpace(name) && !ContainsControl(name)
      && ValidSlug(slug) && IsAbsolutePath(path)
      && ValidTimeRange(createdAt, updatedAt)
    }
  }

  /** The pattern [a-z0-9]+(-[a-z0-9]+)*: lowercase words joined by single hyphens. */
  predicate ValidSlug(s: string) {
    && s != "" && s[0] != '-' && s[|s| - 1] != '-'
    && (forall i :: 0 <= i < |s| ==> IsLowerLetter(s[i]) || IsDigit(s[i]) || s[i] == '-')
    && (forall i :: 0 <= i < |s| - 1 ==> !(s[i] == '-' && s[i + 1] == '-'))
  }

  function ForwardSlash(c: char): char { if c == '\\' then '/' else c }

  predicate IsAbsolutePath(p: string) {
    && p != "" && !ContainsControl(p)
    && if p[0] == '/' then CleanRooted(p)
       else
         && |p| >= 3 && (IsUpperLetter(p[0]) || IsLowerLetter(p[0])) && p[1] == ':'
         && (p[2] == '\\' || p[2] == '/')
         && !('\\' in p[2..] && '/' in p[2..])
         && (|p| == 3 || CleanSegments(Map(ForwardSlash, p)))
  }

  datatype Permission = NoAccess | Read | ReadWrite | UnknownPermission(text: string)

  datatype SharePermission = SharePermission(
    shareID: ID, userID: ID, permission: Permission, createdAt: Timestamp, updatedAt: Timestamp)
  {
    predicate Valid() {
      && ValidID(shareID) && ValidID(userID) && !permission.UnknownPermission?
      && ValidTimeRange(createdAt, updatedAt)
    }
  }

  datatype ShareItem = ShareItem(share: Share, permissions: seq<SharePermission>)

  // ----- TLS and DNS providers ---------------------------------------------------------

  datatype ProviderType = Cloudflare | TencentCloud | DNSPod | AliDNS | UnknownProvider(text: string)

  datatype Provider = Provider(
    id: ID, name: string, kind: ProviderType, zones: seq<string>,
    createdAt: Timestamp, updatedAt: Timestamp)
  {
    predicate Valid() {
      && ValidID(id)
      && name != "" && name == TrimSpace(name) && !ContainsControl(name) && ByteLength(name) <= 128
      && !kind.UnknownProvider?
      && (forall z :: z in zones ==> ValidZone(z))
      && (forall i, j :: 0 <= i < j < |zones| ==> zones[i] != zones[j])
      && ValidTimeRange(createdAt, updatedAt)
    }
  }

  predicate ValidZone(z: string) {
    z != "" && z == TrimSpace(z) && '*' !in z && ValidHostname(z)
  }

  datatype TLSMode = Automatic | Internal | Custom | UnknownTLSMode(text: string)

  datatype Challenge = Blank | Auto | Dns | UnknownChallenge(text: string)

  datatype TLSProfile = TLSProfile(
    id: ID, mode: TLSMode, hostname: string, challenge: Challenge, providerID: Option<ID>,
    certificatePath: string, privateKeyPath: string, createdAt: Timestamp, updatedAt: Timestamp)
  {
    predicate Valid() {
      && ValidID(id) && ValidTimeRange(createdAt, updatedAt)
      && ValidTLSFields(mode, hostname, EffectiveChallenge(challenge), providerID, certificatePath, privateKeyPath)
    }
  }

  /** A blank challenge means auto. */
  function EffectiveChallenge(c: Challenge): Challenge { if c.Blank? then Auto else c }

  predicate ValidTLSFields(mode: TLSMode, hostname: string, challenge: Challenge, providerID: Option<ID>,
                           certificatePath: string, privateKeyPath: string)
  {
    && !mode.UnknownTLSMode? && ValidHostname(hostname)
    && (challenge.Auto? || challenge.Dns?)
    && (challenge.Dns? ==> mode.Automatic? && providerID.Some? && ValidID(providerID.value))
    && (challenge.Auto? ==> providerID.None? && !("*." <= hostname))
    && (if mode.Custom? then IsAbsolutePath(certificatePath) && IsAbsolutePath(privateKeyPath)
        else certificatePath == "" && privateKeyPath == "")
  }

  predicate ValidLabel(part: string) {
    && 0 < |part| <= 63 && part[0] != '-' && part[|part| - 1] != '-'
    && forall i :: 0 <= i < |part| ==>
         IsLowerLetter(part[i]) || IsUpperLetter(part[i]) || IsDigit(part[i]) || part[i] == '-'
  }

  predicate ValidHostname(h: string) {
    && h != "" && h == TrimSpace(h) && !ContainsControl(h) && |h| <= 253
    && !ContainsAny(h, "/\\:@") && h[0] != '.' && h[|h| - 1] != '.'
    && var labels := Split(h, '.');
       var plain := if |labels| > 1 && labels[0] == "*" then labels[1..] else labels;
       forall i :: 0 <= i < |plain| ==> ValidLabel(plain[i])
  }

  // ----- the desired state ----------------------------------------------------------------

  /** RuntimeConfigInput: everything the compiler consumes and a revision records. */
  datatype State = State(
    settings: ServerSettings, tls: Option<TLSProfile>, providers: seq<Provider>,
    users: seq<User>, shares: seq<ShareItem>)

  function ProviderID(p: Provider): ID { p.id }
  function ProviderName(p: Provider): string { p.name }
  function UserID(u: User): ID { u.id }
  function UserNormalized(u: User): string { u.normalized }
  function ItemID(item: ShareItem): ID { item.share.id }
  function ItemSlug(item: ShareItem): string { item.share.slug }
  function PermissionUser(p: SharePermission): ID { p.userID }

  // The comparators of every sort in the program.
  function UserKey(u: User): Key { Key(u.normalized, u.id) }
  function ItemKey(item: ShareItem): Key { Key(item.share.slug, item.share.id) }
  function PermissionKey(p: SharePermission): Key { Key(p.userID, "") }
  function ProviderKey(p: Provider): Key { Key(p.name, p.id) }
  function TextKey(s: string): Key { Key(s, "") }
}
