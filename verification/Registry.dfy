/** DNS provider adapters: how a secret becomes process environment and a secret-free Caddy block. */
module Registry {
  import opened Ordering
  import opened Domain

  type Secret = map<string, string>

  datatype Adapter = Adapter(
    name: string, required: seq<string>, optional: seq<string>, caddyFields: map<string, string>)

  /** The adapter table. */
  function For(kind: ProviderType): Option<Adapter> {
    match kind
    case Cloudflare => Some(Adapter("cloudflare", ["api_token"], [], map["api_token" := "api_token"]))
    case TencentCloud =>
      Some(Adapter("tencentcloud", ["secret_id", "secret_key"], [],
                   map["secretid" := "secret_id", "secretkey" := "secret_key"]))
    case DNSPod => Some(Adapter("dnspod", ["api_token"], [], map["api_token" := "api_token"]))
    case AliDNS =>
      Some(Adapter("alidns", ["access_key_id", "access_key_secret"], ["security_token"],
                   map["access_key_id" := "access_key_id", "access_key_secret" := "access_key_secret",
                       "security_token" := "security_token"]))
    case UnknownProvider(_) => None
  }

  predicate AcceptableValue(v: string) {
    && v != "" && v == TrimSpace(v)
    && (forall i :: 0 <= i < |v| ==> v[i] >= ' ' && v[i] != '\U{7f}')
    && ByteLength(v) <= 4096
  }

  predicate ValidSecret(a: Adapter, secret: Secret) {
    && (forall f :: f in secret ==> (f in a.required || f in a.optional) && AcceptableValue(secret[f]))
    && (forall f :: f in a.required ==> f in secret)
  }

  method ValidateSecret(a: Adapter, secret: Secret) returns (ok: bool)
    ensures ok <==> ValidSecret(a, secret)
  {
    hide AcceptableValue;
    var allowed: set<string> := {};
    var fields := a.required + a.optional;
    for i := 0 to |fields|
      invariant allowed == Elements(fields[..i])
    {
      allowed := allowed + {fields[i]};
    }
    assert fields[..|fields|] == fields;
    var rest := secret.Keys;
    while rest != {}
      invariant rest <= secret.Keys
      invariant forall f :: f in secret.Keys - rest ==> f in allowed && AcceptableValue(secret[f])
    {
      var f :| f in rest;
      if f !in allowed || !AcceptableValue(secret[f]) { return false; }
      rest := rest - {f};
    }
    for i := 0 to |a.required|
      invariant forall j :: 0 <= j < i ==> a.required[j] in secret
    {
      if a.required[i] !in secret { return false; }
    }
    return true;
  }

  // ----- environment names -----------------------------------------------------------

  function Without(s: string, c: char): string {
    if |s| == 0 then ""
    else (if s[0] == c then "" else [s[0]]) + Without(s[1..], c)
  }

  function Underscore(c: char): char { if c == '-' then '_' else c }

  const ENVIRONMENT_PREFIX := "DAVDECK_DNS_"

  function EnvironmentName(id: ID, field: string): string {
    ENVIRONMENT_PREFIX + ToUpper(Without(id, '-')) + "_" + ToUpper(Map(Underscore, field))
  }

  /** Field names of every adapter: lowercase letters and underscores. */
  predicate PlainField(f: string) {
    forall i :: 0 <= i < |f| ==> IsLowerLetter(f[i]) || f[i] == '_'
  }

  lemma {:induction false} WithoutConcat(a: string, b: string, c: char)
    ensures Without(a + b, c) == Without(a, c) + Without(b, c)
  {
    if |a| == 0 {
      assert a + b == b;
    } else {
      assert (a + b)[1..] == a[1..] + b;
      WithoutConcat(a[1..], b, c);
    }
  }

  lemma {:induction false} WithoutAbsent(s: string, c: char)
    requires c !in s
    ensures Without(s, c) == s
  {
    if |s| > 0 { WithoutAbsent(s[1..], c); }
  }

  /** The hexadecimal digits of a canonical identifier. */
  function Digits(id: ID): string
    requires |id| == 36
  {
    id[..8] + id[9..13] + id[14..18] + id[19..23] + id[24..]
  }

  /** Dropping the hyphen after a hyphen-free word. */
  lemma WithoutWord(word: string, rest: string)
    requires '-' !in word
    ensures Without(word + ("-" + rest), '-') == word + Without(rest, '-')
  {
    var tail := "-" + rest;
    assert tail[0] == '-' && tail[1..] == rest;
    assert Without(tail, '-') == Without(rest, '-');
    WithoutConcat(word, tail, '-');
    WithoutAbsent(word, '-');
  }

  lemma FiveWords(a: string, b: string, c: string, d: string, e: string)
    requires '-' !in a && '-' !in b && '-' !in c && '-' !in d && '-' !in e
    ensures Without(a + ("-" + (b + ("-" + (c + ("-" + (d + ("-" + e))))))), '-') == a + (b + (c + (d + e)))
  {
    WithoutWord(a, b + ("-" + (c + ("-" + (d + ("-" + e))))));
    WithoutWord(b, c + ("-" + (d + ("-" + e))));
    WithoutWord(c, d + ("-" + e));
    WithoutWord(d, e);
    WithoutAbsent(e, '-');
  }

  lemma HexWord(id: ID, from: nat, to: nat)
    requires ValidID(id) && from <= to <= 36
    requires forall i :: from <= i < to ==> !HyphenPosition(i)
    ensures '-' !in id[from..to]
  {
  }

  /** A canonical identifier is five words joined by hyphens. */
  lemma Words(id: ID)
    requires ValidID(id)
    ensures id == id[..8] + ("-" + (id[9..13] + ("-" + (id[14..18] + ("-" + (id[19..23] + ("-" + id[24..])))))))
  {
  }

  lemma WithoutHyphens(id: ID)
    requires ValidID(id)
    ensures Without(id, '-') == Digits(id)
  {
    Words(id);
    HexWord(id, 0, 8);
    HexWord(id, 9, 13);
    HexWord(id, 14, 18);
    HexWord(id, 19, 23);
    HexWord(id, 24, 36);
    assert id[0..8] == id[..8] && id[24..36] == id[24..];
    var a, b, c, d, e := id[..8], id[9..13], id[14..18], id[19..23], id[24..];
    FiveWords(a, b, c, d, e);
    assert a + (b + (c + (d + e))) == a + b + c + d + e;
  }

  lemma UpperInjective(a: string, b: string)
    requires ToUpper(a) == ToUpper(b)
    requires forall i :: 0 <= i < |a| ==> !IsUpperLetter(a[i])
    requires forall i :: 0 <= i < |b| ==> !IsUpperLetter(b[i])
    ensures a == b
  {
  }

  lemma DigitsDetermine(a: ID, b: ID)
    requires ValidID(a) && ValidID(b) && Digits(a) == Digits(b)
    ensures a == b
  {
    forall i | 0 <= i < 36 ensures a[i] == b[i] {
      if !HyphenPosition(i) {
        var k := if i < 8 then i else if i < 13 then i - 1 else if i < 18 then i - 2 else if i < 23 then i - 3 else i - 4;
        assert Digits(a)[k] == a[i] && Digits(b)[k] == b[i];
      }
    }
  }

  lemma DigitsLower(id: ID)
    requires ValidID(id)
    ensures |Digits(id)| == 32
    ensures forall i :: 0 <= i < 32 ==> !IsUpperLetter(Digits(id)[i])
  {
  }

  lemma PlainUnchanged(f: string)
    requires PlainField(f)
    ensures Map(Underscore, f) == f
  {
  }

  /** No two (credential, field) pairs share an environment variable. */
  lemma EnvironmentNameInjective(a: ID, f: string, b: ID, g: string)
    requires ValidID(a) && ValidID(b) && PlainField(f) && PlainField(g)
    requires EnvironmentName(a, f) == EnvironmentName(b, g)
    ensures a == b && f == g
  {
    WithoutHyphens(a);
    WithoutHyphens(b);
    DigitsLower(a);
    DigitsLower(b);
    PlainUnchanged(f);
    PlainUnchanged(g);
    var n := |ENVIRONMENT_PREFIX|;
    var x, y := EnvironmentName(a, f), EnvironmentName(b, g);
    assert x[n..n + 32] == ToUpper(Digits(a)) && y[n..n + 32] == ToUpper(Digits(b));
    assert x[n + 33..] == ToUpper(f) && y[n + 33..] == ToUpper(g);
    UpperInjective(Digits(a), Digits(b));
    DigitsDetermine(a, b);
    UpperInjective(f, g);
  }

  // ----- the two sides of a secret ---------------------------------------------------------

  const PLACEHOLDER_OPEN := "{env."
  const PLACEHOLDER_CLOSE := "}"

  function Placeholder(name: string): string { PLACEHOLDER_OPEN + name + PLACEHOLDER_CLOSE }

  /** The block written into the Caddy configuration: placeholders, never values. */
  function ProviderBlock(a: Adapter, id: ID): map<string, string> {
    map["name" := a.name] +
    (map f | f in a.caddyFields :: Placeholder(EnvironmentName(id, a.caddyFields[f])))
  }

  method CaddyProvider(a: Adapter, id: ID) returns (block: map<string, string>)
    ensures block == ProviderBlock(a, id)
  {
    block := map["name" := a.name];
    var rest := a.caddyFields.Keys;
    while rest != {}
      invariant rest <= a.caddyFields.Keys
      invariant block.Keys == {"name"} + (a.caddyFields.Keys - rest)
      invariant forall f :: f in a.caddyFields.Keys - rest ==>
                              block[f] == Placeholder(EnvironmentName(id, a.caddyFields[f]))
      invariant "name" in a.caddyFields.Keys - rest || block["name"] == a.name
    {
      var f :| f in rest;
      block := block[f := "{env." + EnvironmentName(id, a.caddyFields[f]) + "}"];
      rest := rest - {f};
    }
  }

  /** env is the environment of a secret: its variables are the fields' names, with the fields' values. */
  ghost predicate EnvironmentOf(env: map<string, string>, id: ID, secret: Secret) {
    && (forall f :: f in secret ==> EnvironmentName(id, f) in env && env[EnvironmentName(id, f)] == secret[f])
    && (forall n :: n in env ==> exists f :: f in secret && n == EnvironmentName(id, f))
  }

  /** One more field: its variable is new. */
  lemma EnvironmentStep(env: map<string, string>, id: ID, secret: Secret, done: set<string>, f: string)
    requires ValidID(id) && (forall g :: g in secret ==> PlainField(g)) && done <= secret.Keys && f in secret && f !in done
    requires EnvironmentOf(env, id, map g | g in done :: secret[g])
    ensures EnvironmentOf(env[EnvironmentName(id, f) := secret[f]], id, map g | g in done + {f} :: secret[g])
  {
    hide EnvironmentName;
    hide PlainField;
    hide ValidID;
    forall g | g in done ensures EnvironmentName(id, g) != EnvironmentName(id, f) {
      if EnvironmentName(id, g) == EnvironmentName(id, f) { EnvironmentNameInjective(id, g, id, f); }
    }
    var after := map g | g in done + {f} :: secret[g];
    forall n | n in env ensures exists g :: g in after && n == EnvironmentName(id, g) {
      var g :| g in done && n == EnvironmentName(id, g);
      assert g in after;
    }
    assert f in after;
  }

  method Environment(id: ID, secret: Secret) returns (env: map<string, string>)
    ensures ValidID(id) && (forall f :: f in secret ==> PlainField(f)) ==> EnvironmentOf(env, id, secret)
  {
    hide EnvironmentName;
    hide PlainField;
    hide ValidID;
    env := map[];
    var rest := secret.Keys;
    ghost var done: set<string> := {};
    while rest != {}
      invariant done + rest == secret.Keys && done !! rest
      invariant ValidID(id) && (forall f :: f in secret ==> PlainField(f)) ==>
                  EnvironmentOf(env, id, map f | f in done :: secret[f])
    {
      var f :| f in rest;
      if ValidID(id) && forall g :: g in secret ==> PlainField(g) { EnvironmentStep(env, id, secret, done, f); }
      env := env[EnvironmentName(id, f) := secret[f]];
      rest, done := rest - {f}, done + {f};
    }
    assert (map g | g in done :: secret[g]) == secret;
  }

  /** What Caddy reads for a configured value: a placeholder gives the variable, or nothing if unset. */
  function Expand(value: string, env: map<string, string>): string {
    var n, m := |PLACEHOLDER_OPEN|, |PLACEHOLDER_CLOSE|;
    if |value| >= n + m && value[..n] == PLACEHOLDER_OPEN && value[|value| - m..] == PLACEHOLDER_CLOSE then
      var name := value[n..|value| - m];
      if name in env then env[name] else ""
    else value
  }

  lemma ExpandPlaceholder(name: string, env: map<string, string>)
    ensures Expand(Placeholder(name), env) == if name in env then env[name] else ""
  {
  }

  /** What the adapter table guarantees: plain field names, and a Caddy field for every secret field. */
  ghost predicate WellFormed(a: Adapter) {
    && "name" !in a.caddyFields
    && (forall f :: f in a.required || f in a.optional ==> PlainField(f))
    && (forall f :: f in a.caddyFields ==> a.caddyFields[f] in a.required || a.caddyFields[f] in a.optional)
    && (forall f :: f in a.required || f in a.optional ==> exists c :: c in a.caddyFields && a.caddyFields[c] == f)
  }

  lemma TencentCloudWellFormed()
    ensures WellFormed(For(TencentCloud).value)
  {
    var a := For(TencentCloud).value;
    assert a.caddyFields.Keys == {"secretid", "secretkey"};
    assert a.caddyFields["secretid"] == "secret_id" && PlainField("secret_id");
    assert a.caddyFields["secretkey"] == "secret_key" && PlainField("secret_key");
  }

  lemma AliDNSWellFormed()
    ensures WellFormed(For(AliDNS).value)
  {
    var a := For(AliDNS).value;
    assert a.caddyFields.Keys == {"access_key_id", "access_key_secret", "security_token"};
    assert a.caddyFields["access_key_id"] == "access_key_id" && PlainField("access_key_id");
    assert a.caddyFields["access_key_secret"] == "access_key_secret" && PlainField("access_key_secret");
    assert a.caddyFields["security_token"] == "security_token" && PlainField("security_token");
  }

  lemma AdapterWellFormed(kind: ProviderType)
    requires For(kind).Some?
    ensures WellFormed(For(kind).value)
  {
    match kind {
      case TencentCloud => TencentCloudWellFormed();
      case AliDNS => AliDNSWellFormed();
      case Cloudflare => assert For(kind).value.caddyFields["api_token"] == "api_token" && PlainField("api_token");
      case DNSPod => assert For(kind).value.caddyFields["api_token"] == "api_token" && PlainField("api_token");
    }
  }

  lemma FieldResolves(a: Adapter, id: ID, secret: Secret, env: map<string, string>, field: string)
    requires WellFormed(a) && ValidID(id) && PlainField(field)
    requires forall f :: f in secret ==> PlainField(f)
    requires EnvironmentOf(env, id, secret)
    ensures Expand(Placeholder(EnvironmentName(id, field)), env) == if field in secret then secret[field] else ""
  {
    var name := EnvironmentName(id, field);
    ExpandPlaceholder(name, env);
    if name in env {
      var g :| g in secret && name == EnvironmentName(id, g);
      EnvironmentNameInjective(id, field, id, g);
    }
  }

  /** Placeholders resolve exactly: with the environment of an accepted secret, every configured field
      reads the stored value, and an absent optional field reads as empty. */
  lemma SecretResolves(a: Adapter, id: ID, secret: Secret, env: map<string, string>, field: string)
    requires WellFormed(a) && ValidID(id) && ValidSecret(a, secret) && EnvironmentOf(env, id, secret)
    requires field in a.caddyFields
    ensures Expand(ProviderBlock(a, id)[field], env) ==
            if a.caddyFields[field] in secret then secret[a.caddyFields[field]] else ""
  {
    FieldResolves(a, id, secret, env, a.caddyFields[field]);
  }

  /** Nothing stored is lost: every field of an accepted secret is read back by some field of the block,
      and every required field is stored. */
  lemma SecretComplete(a: Adapter, id: ID, secret: Secret, env: map<string, string>, stored: string) returns (field: string)
    requires WellFormed(a) && ValidID(id) && ValidSecret(a, secret) && EnvironmentOf(env, id, secret)
    requires stored in secret || stored in a.required
    ensures stored in secret && field in a.caddyFields
    ensures Expand(ProviderBlock(a, id)[field], env) == secret[stored]
  {
    field :| field in a.caddyFields && a.caddyFields[field] == stored;
    SecretResolves(a, id, secret, env, field);
  }

  /** The environments of two credentials never overlap, so neither can shadow the other. */
  lemma EnvironmentsDisjoint(a: ID, s: Secret, e: map<string, string>, b: ID, t: Secret, g: map<string, string>)
    requires ValidID(a) && ValidID(b) && a != b
    requires forall f :: f in s || f in t ==> PlainField(f)
    requires EnvironmentOf(e, a, s) && EnvironmentOf(g, b, t)
    ensures e.Keys !! g.Keys
  {
    forall n | n in e && n in g ensures false {
      var x :| x in s && n == EnvironmentName(a, x);
      var y :| y in t && n == EnvironmentName(b, y);
      EnvironmentNameInjective(a, x, b, y);
    }
  }
}
