/** The secret environment that a state needs: the variables of the one credential its DNS challenge names. */
module DNSEnvironment {
  import opened Ordering
  import opened Domain
  import opened Registry

  function WithoutPrefix(s: string, prefix: string): string { if prefix <= s then s[|prefix|..] else s }

  predicate HasSuffix(s: string, suffix: string) { |suffix| <= |s| && s[|s| - |suffix|..] == suffix }

  function WithoutSuffix(s: string, suffix: string): string { if HasSuffix(s, suffix) then s[..|s| - |suffix|] else s }

  /** The zone contains the hostname, read without case, wildcard label and final dot. */
  predicate ZoneAllows(zone: string, hostname: string) {
    var h, z := WithoutPrefix(ToLower(hostname), "*."), ToLower(WithoutSuffix(zone, "."));
    h == z || HasSuffix(h, "." + z)
  }

  predicate ZonesAllow(zones: seq<string>, hostname: string) {
    zones == [] || exists i :: 0 <= i < |zones| && ZoneAllows(zones[i], hostname)
  }

  method HostnameAllowedByZones(hostname: string, zones: seq<string>) returns (ok: bool)
    ensures ok <==> exists i :: 0 <= i < |zones| && ZoneAllows(zones[i], hostname)
  {
    hide ZoneAllows;
    for i := 0 to |zones|
      invariant forall j :: 0 <= j < i ==> !ZoneAllows(zones[j], hostname)
    {
      if ZoneAllows(zones[i], hostname) { return true; }
    }
    return false;
  }

  predicate NeedsSecret(tls: Option<TLSProfile>) { tls.Some? && tls.value.challenge.Dns? }

  /** The credential is known, allows the hostname, and has a secret that its adapter accepts. */
  predicate Supplied(tls: TLSProfile, credential: Result<Option<Provider>>, secret: Result<Option<Secret>>) {
    && tls.providerID.Some? && credential.Success? && credential.value.Some? && secret.Success? && secret.value.Some?
    && (var p := credential.value.value;
        ZonesAllow(p.zones, tls.hostname) && For(p.kind).Some? && ValidSecret(For(p.kind).value, secret.value.value))
  }

  /** The variables of an accepted secret of some credential. */
  ghost predicate Supplies(env: map<string, string>, kind: ProviderType, id: ID, secret: Secret) {
    For(kind).Some? && ValidID(id) && ValidSecret(For(kind).value, secret) && EnvironmentOf(env, id, secret)
  }

  /** Environment, given what the repository and the secret store answer. */
  method Environment(tls: Option<TLSProfile>, credential: Result<Option<Provider>>, secret: Result<Option<Secret>>)
    returns (r: Result<map<string, string>>)
    requires credential.Success? && credential.value.Some? ==> credential.value.value.Valid()
    ensures r.Success? <==> (NeedsSecret(tls) ==> Supplied(tls.value, credential, secret))
    ensures r.Success? && !NeedsSecret(tls) ==> r.value == map[]
    ensures r.Success? && NeedsSecret(tls) ==>
              Supplies(r.value, credential.value.value.kind, credential.value.value.id, secret.value.value)
  {
    hide ZoneAllows;
    hide ValidSecret;
    hide For;
    hide EnvironmentOf;
    if tls.None? || !tls.value.challenge.Dns? { return Success(map[]); }
    if tls.value.providerID.None? { return Failure; }
    if credential.Failure? { return Failure; }
    if credential.value.None? { return Failure; }
    var p := credential.value.value;
    if |p.zones| > 0 {
      var allowed := HostnameAllowedByZones(tls.value.hostname, p.zones);
      if !allowed { return Failure; }
    }
    if secret.Failure? { return Failure; }
    if secret.value.None? { return Failure; }
    var adapter := For(p.kind);
    if adapter.None? { return Failure; }
    var ok := ValidateSecret(adapter.value, secret.value.value);
    if !ok { return Failure; }
    PlainSecret(p.kind, secret.value.value);
    var env := Registry.Environment(p.id, secret.value.value);
    return Success(env);
  }

  lemma PlainSecret(kind: ProviderType, secret: Secret)
    requires For(kind).Some? && ValidSecret(For(kind).value, secret)
    ensures forall f :: f in secret ==> PlainField(f)
  {
    hide PlainField;
    AdapterWellFormed(kind);
    hide For;
  }

  /** No environment of the program has an empty value, and one that supplies a secret is not empty. */
  lemma FilledEnvironment(env: map<string, string>, kind: ProviderType, id: ID, secret: Secret)
    requires Supplies(env, kind, id, secret)
    ensures env != map[] && forall n :: n in env ==> env[n] != ""
  {
    hide EnvironmentName;
    assert For(kind).value.required != [] && For(kind).value.required[0] in secret;
  }
}
