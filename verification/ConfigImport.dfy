/** Import: one transaction that lays a document over the state tables. */
module ConfigImport {
  import opened Ordering
  import opened Domain
  import opened Snapshot
  import opened Tables
  import opened ConfigFile
  import opened Database

  datatype ImportSeed = ImportSeed(
    document: Document, userIDs: map<string, ID>, userHashes: map<string, string>, shareIDs: map<string, ID>,
    tlsID: ID, timestamp: Timestamp)

  datatype ImportResult = ImportResult(
    serverUpdated: bool, tlsUpdated: bool, usersCreated: nat, usersUpdated: nat, sharesCreated: nat, sharesUpdated: nat,
    permissionsUpserted: nat, passwordResetRequired: seq<string>)

  function Get(m: map<string, string>, k: string): string { if k in m then m[k] else "" }

  // ----- specification: one table ---------------------------------------------------------

  /** How a document row meets a table row. */
  datatype Upsert<!D, !R> = Upsert(key: D -> string, update: (R, D) -> R, create: D -> R, complete: R -> bool, id: R -> ID)

  /** The old rows, overridden by the document's. */
  ghost predicate Upserted<D(!new), R>(o: Upsert<D, R>, old': map<string, R>, docs: seq<D>, new': map<string, R>) {
    && new'.Keys == old'.Keys + Image(o.key, docs)
    && (forall d :: d in docs ==> new'[o.key(d)] == if o.key(d) in old' then o.update(old'[o.key(d)], d) else o.create(d))
    && (forall k :: k in old' && k !in Image(o.key, docs) ==> new'[k] == old'[k])
  }

  /** Every new row is complete and brings an identifier of its own. */
  ghost predicate Insertable<D(!new), R>(o: Upsert<D, R>, old': map<string, R>, docs: seq<D>) {
    && (forall d :: d in docs && o.key(d) !in old' ==>
          o.complete(o.create(d)) && forall k :: k in old' ==> o.id(old'[k]) != o.id(o.create(d)))
    && (forall i, j :: 0 <= i < j < |docs| && o.key(docs[i]) !in old' && o.key(docs[j]) !in old' ==>
          o.id(o.create(docs[i])) != o.id(o.create(docs[j])))
  }

  /** The document rows without a table row, in order. */
  function NewRows<D, R>(o: Upsert<D, R>, old': map<string, R>, docs: seq<D>): seq<D> {
    if |docs| == 0 then []
    else
      var last := docs[|docs| - 1];
      NewRows(o, old', docs[..|docs| - 1]) + (if o.key(last) in old' then [] else [last])
  }

  ghost predicate KeepsID<D(!new), R(!new)>(o: Upsert<D, R>) {
    forall r, d :: o.id(o.update(r, d)) == o.id(r)
  }

  lemma ImageStep<D(!new)>(docs: seq<D>, i: nat, key: D -> string)
    requires i < |docs| && Distinct(docs, key)
    ensures Image(key, docs[..i + 1]) == Image(key, docs[..i]) + {key(docs[i])}
    ensures key(docs[i]) !in Image(key, docs[..i])
  {
  }

  lemma UpsertStep<D(!new), R(!new)>(o: Upsert<D, R>, old': map<string, R>, docs: seq<D>, i: nat, rows: map<string, R>)
    requires i < |docs| && Distinct(docs, o.key) && Upserted(o, old', docs[..i], rows)
    ensures var d := docs[i];
            && (o.key(d) in rows <==> o.key(d) in old')
            && (o.key(d) in rows ==> rows[o.key(d)] == old'[o.key(d)])
            && Upserted(o, old', docs[..i + 1],
                        rows[o.key(d) := if o.key(d) in rows then o.update(rows[o.key(d)], d) else o.create(d)])
  {
    ImageStep(docs, i, o.key);
    hide Image;
    hide Distinct;
    assert docs[..i + 1] == docs[..i] + [docs[i]];
  }

  /** The next row keeps the import possible. */
  ghost predicate Admits<D, R>(o: Upsert<D, R>, old': map<string, R>, docs: seq<D>, i: nat)
    requires i < |docs|
  {
    o.key(docs[i]) in old' ||
    (var row := o.create(docs[i]);
     && o.complete(row)
     && (forall k :: k in old' ==> o.id(old'[k]) != o.id(row))
     && (forall j :: 0 <= j < i && o.key(docs[j]) !in old' ==> o.id(o.create(docs[j])) != o.id(row)))
  }

  lemma InsertStep<D(!new), R>(o: Upsert<D, R>, old': map<string, R>, docs: seq<D>, i: nat)
    requires i < |docs|
    ensures Insertable(o, old', docs[..i]) && Admits(o, old', docs, i) ==> Insertable(o, old', docs[..i + 1])
    ensures Insertable(o, old', docs) || o.key(docs[i]) in old' ==> Admits(o, old', docs, i)
  {
  }

  /** What the loop tests before it inserts. */
  lemma AdmitsTested<D(!new), R(!new)>(o: Upsert<D, R>, old': map<string, R>, docs: seq<D>, i: nat, rows: map<string, R>)
    requires i < |docs| && KeepsID(o) && Upserted(o, old', docs[..i], rows) && o.key(docs[i]) !in old'
    ensures Admits(o, old', docs, i) <==>
            o.complete(o.create(docs[i])) && !exists k :: k in rows && o.id(rows[k]) == o.id(o.create(docs[i]))
  {
  }

  lemma NewRowsStep<D, R>(o: Upsert<D, R>, old': map<string, R>, docs: seq<D>, i: nat)
    requires i < |docs|
    ensures NewRows(o, old', docs[..i + 1]) == NewRows(o, old', docs[..i]) + (if o.key(docs[i]) in old' then [] else [docs[i]])
  {
    assert docs[..i + 1][..i] == docs[..i];
  }

  lemma UpsertNone<D(!new), R>(o: Upsert<D, R>, old': map<string, R>, docs: seq<D>)
    ensures Upserted(o, old', docs[..0], old') && Insertable(o, old', docs[..0]) && NewRows(o, old', docs[..0]) == []
  {
  }

  /** One table's loop of the transaction. */
  method UpsertRows<D(!new), R(!new, ==)>(o: Upsert<D, R>, old': map<string, R>, docs: seq<D>)
    returns (r: Result<map<string, R>>, created: seq<D>, updated: nat)
    requires Distinct(docs, o.key) && KeepsID(o)
    ensures r.Success? <==> Insertable(o, old', docs)
    ensures r.Success? ==> Upserted(o, old', docs, r.value) && created == NewRows(o, old', docs) && updated + |created| == |docs|
  {
    hide Upserted;
    hide Insertable;
    hide Admits;
    hide KeepsID;
    hide NewRows;
    hide Distinct;
    var rows := old';
    created, updated := [], 0;
    UpsertNone(o, old', docs);
    for i := 0 to |docs|
      invariant Upserted(o, old', docs[..i], rows) && Insertable(o, old', docs[..i])
      invariant created == NewRows(o, old', docs[..i]) && updated + |created| == i
    {
      InsertStep(o, old', docs, i);
      NewRowsStep(o, old', docs, i);
      UpsertStep(o, old', docs, i, rows);
      var d := docs[i];
      var key := o.key(d);
      if key in rows {
        rows := rows[key := o.update(rows[key], d)];
        updated := updated + 1;
      } else {
        var row := o.create(d);
        AdmitsTested(o, old', docs, i, rows);
        if !o.complete(row) { return Failure, created, updated; }
        if exists k :: k in rows && o.id(rows[k]) == o.id(row) { return Failure, created, updated; }
        rows := rows[key := row];
        created := created + [d];
      }
    }
    assert docs[..|docs|] == docs;
    return Success(rows), created, updated;
  }

  // ----- specification: the whole transaction ------------------------------------------------

  function Flag(o: Option<bool>): bool { o.Some? && o.value }

  function UserUpsert(seed: ImportSeed): Upsert<DocUser, User> {
    Upsert(DocNormalized,
           (u: User, d: DocUser) => u.(username := d.username, enabled := Flag(d.enabled), updatedAt := seed.timestamp),
           (d: DocUser) => var n := DocNormalized(d);
                           User(Get(seed.userIDs, n), d.username, n, Get(seed.userHashes, n), Flag(d.enabled), seed.timestamp, seed.timestamp),
           (u: User) => u.id != "" && u.passwordHash != "",
           UserID)
  }

  function ShareID(s: Share): ID { s.id }

  function ShareUpsert(seed: ImportSeed): Upsert<DocShare, Share> {
    Upsert(DocSlug,
           (s: Share, d: DocShare) => s.(name := d.name, path := d.path, enabled := Flag(d.enabled), updatedAt := seed.timestamp),
           (d: DocShare) => Share(Get(seed.shareIDs, d.slug), d.name, d.slug, d.path, Flag(d.enabled), seed.timestamp, seed.timestamp),
           (s: Share) => s.id != "",
           ShareID)
  }

  function OverlaidServer(s: ServerSettings, d: Option<DocServer>, stamp: Timestamp): ServerSettings {
    if d.None? then s
    else s.(publicBasePath := d.value.publicBasePath, httpPort := d.value.httpPort, httpsPort := d.value.httpsPort,
            runtimeMode := d.value.runtimeMode, updatedAt := stamp)
  }

  ghost predicate ProviderNamed(ps: map<ID, Provider>, id: ID, name: string) { id in ps && ps[id].name == name }

  ghost predicate TLSImportable(t: Tables, d: Option<DocTLS>) {
    d.Some? && d.value.dnsProvider != "" ==> exists id :: ProviderNamed(t.providers, id, d.value.dnsProvider)
  }

  ghost predicate TLSOverlaid(t: Tables, d: Option<DocTLS>, seed: ImportSeed, tls: Option<TLSProfile>) {
    if d.None? then tls == t.tls
    else
      && tls.Some?
      && tls.value == TLSProfile(if t.tls.Some? then t.tls.value.id else seed.tlsID, d.value.mode, d.value.hostname,
                                 EffectiveChallenge(d.value.challenge), tls.value.providerID,
                                 d.value.certificatePath, d.value.privateKeyPath,
                                 if t.tls.Some? then t.tls.value.createdAt else seed.timestamp, seed.timestamp)
      && (if d.value.dnsProvider == "" then tls.value.providerID.None?
          else tls.value.providerID.Some? && ProviderNamed(t.providers, tls.value.providerID.value, d.value.dnsProvider))
  }

  /** The (share, user name) pairs a document grants something to. */
  ghost function GrantPairs(docs: seq<DocShare>): set<(DocShare, string)> {
    set d, n | d in docs && n in d.permissions :: (d, n)
  }

  ghost predicate Placed(users: map<string, User>, shares: map<string, Share>, g: (DocShare, string)) {
    g.0.slug in shares && NormalizeUsername(g.1) in users && g.1 in g.0.permissions && ParsePermission(g.0.permissions[g.1]).Some?
  }

  ghost function Target(users: map<string, User>, shares: map<string, Share>, g: (DocShare, string)): (ID, ID)
    requires Placed(users, shares, g)
  {
    (shares[g.0.slug].id, users[NormalizeUsername(g.1)].id)
  }

  function OverlaidPermission(old': map<(ID, ID), SharePermission>, k: (ID, ID), p: Permission, stamp: Timestamp): SharePermission {
    if k in old' then old'[k].(permission := p, updatedAt := stamp) else SharePermission(k.0, k.1, p, stamp, stamp)
  }

  /** The permission a document grants. */
  function Wanted(g: (DocShare, string)): Permission {
    if g.1 in g.0.permissions && ParsePermission(g.0.permissions[g.1]).Some?
    then ParsePermission(g.0.permissions[g.1]).value else NoAccess
  }

  /** The old permission rows, overridden by what is wanted for some of them. */
  ghost function LaidOver(old': map<(ID, ID), SharePermission>, wanted: map<(ID, ID), Permission>, stamp: Timestamp)
    : map<(ID, ID), SharePermission>
  {
    old' + (map k | k in wanted :: OverlaidPermission(old', k, wanted[k], stamp))
  }

  /** wanted is what the grants ask for, row by row. */
  ghost predicate WantedRows(wanted: map<(ID, ID), Permission>, users: map<string, User>, shares: map<string, Share>,
                             grants: set<(DocShare, string)>) {
    && (forall g :: g in grants ==> Placed(users, shares, g) && Target(users, shares, g) in wanted)
    && (forall g :: g in grants ==> wanted[Target(users, shares, g)] == Wanted(g))
    && (forall k :: k in wanted ==> exists g :: g in grants && Target(users, shares, g) == k)
  }

  ghost predicate PermissionsOverlaid(old': map<(ID, ID), SharePermission>, users: map<string, User>, shares: map<string, Share>,
                                      grants: set<(DocShare, string)>, stamp: Timestamp, new': map<(ID, ID), SharePermission>) {
    exists wanted :: WantedRows(wanted, users, shares, grants) && new' == LaidOver(old', wanted, stamp)
  }

  function TotalPermissions(docs: seq<DocShare>): nat {
    if |docs| == 0 then 0 else TotalPermissions(docs[..|docs| - 1]) + |docs[|docs| - 1].permissions|
  }

  ghost predicate Importable(t: Tables, seed: ImportSeed) {
    var d := seed.document;
    && TLSImportable(t, d.tls)
    && Insertable(UserUpsert(seed), t.users, d.users) && Insertable(ShareUpsert(seed), t.shares, d.shares)
    && forall g :: g in GrantPairs(d.shares) ==>
         && (NormalizeUsername(g.1) in t.users || NormalizeUsername(g.1) in Image(DocNormalized, d.users))
         && ParsePermission(g.0.permissions[g.1]).Some?
  }

  /** The tables t, overridden by the document. */
  ghost predicate Overlaid(t: Tables, seed: ImportSeed, t': Tables) {
    var d := seed.document;
    && t'.settings == OverlaidServer(t.settings, d.server, seed.timestamp)
    && TLSOverlaid(t, d.tls, seed, t'.tls)
    && t'.providers == t.providers
    && Upserted(UserUpsert(seed), t.users, d.users, t'.users)
    && Upserted(ShareUpsert(seed), t.shares, d.shares, t'.shares)
    && PermissionsOverlaid(t.permissions, t'.users, t'.shares, GrantPairs(d.shares), seed.timestamp, t'.permissions)
  }

  function UsernameOf(d: DocUser): string { d.username }

  ghost predicate Counted(t: Tables, d: Document, r: ImportResult, newUsers: seq<DocUser>, newShares: seq<DocShare>) {
    && r.serverUpdated == d.server.Some? && r.tlsUpdated == d.tls.Some?
    && r.usersCreated == |newUsers| && r.usersCreated + r.usersUpdated == |d.users|
    && r.sharesCreated == |newShares| && r.sharesCreated + r.sharesUpdated == |d.shares|
    && r.passwordResetRequired == Map(UsernameOf, newUsers) && r.permissionsUpserted == TotalPermissions(d.shares)
  }

  /** Does the transaction write any row (and so fire a dirty trigger)? */
  predicate Writes(d: Document) { d.server.Some? || d.tls.Some? || |d.users| > 0 || |d.shares| > 0 }

  // ----- the transaction ----------------------------------------------------------------------

  method ImportTLS(t: Tables, d: Option<DocTLS>, seed: ImportSeed) returns (r: Result<Option<TLSProfile>>)
    ensures r.Success? <==> TLSImportable(t, d)
    ensures r.Success? ==> TLSOverlaid(t, d, seed, r.value)
  {
    if d.None? { return Success(t.tls); }
    var id, created := seed.tlsID, seed.timestamp;
    if t.tls.Some? { id, created := t.tls.value.id, t.tls.value.createdAt; }
    var provider := None;
    if d.value.dnsProvider != "" {
      if !(exists p :: p in t.providers && t.providers[p].name == d.value.dnsProvider) {
        assert !exists p :: ProviderNamed(t.providers, p, d.value.dnsProvider);
        return Failure;
      }
      var p :| p in t.providers && t.providers[p].name == d.value.dnsProvider;
      assert ProviderNamed(t.providers, p, d.value.dnsProvider);
      provider := Some(p);
    }
    var challenge := d.value.challenge;
    if challenge.Blank? { challenge := Auto; }
    return Success(Some(TLSProfile(id, d.value.mode, d.value.hostname, challenge, provider,
                                   d.value.certificatePath, d.value.privateKeyPath, created, seed.timestamp)));
  }

  /** Different grants concern different rows. */
  ghost predicate SeparateTargets(users: map<string, User>, shares: map<string, Share>, grants: set<(DocShare, string)>) {
    forall g, h :: (g in grants && h in grants && Placed(users, shares, g) && Placed(users, shares, h)
                    && Target(users, shares, g) == Target(users, shares, h)) ==> g == h
  }

  lemma LaidStep(old': map<(ID, ID), SharePermission>, wanted: map<(ID, ID), Permission>, k: (ID, ID), p: Permission, stamp: Timestamp)
    ensures var rows := LaidOver(old', wanted, stamp);
            rows[k := OverlaidPermission(rows, k, p, stamp)] == LaidOver(old', wanted[k := p], stamp)
  {
  }

  lemma WantedStep(wanted: map<(ID, ID), Permission>, users: map<string, User>, shares: map<string, Share>,
                   done: set<(DocShare, string)>, all: set<(DocShare, string)>, g: (DocShare, string))
    requires WantedRows(wanted, users, shares, done) && done <= all && g in all
    requires SeparateTargets(users, shares, all) && Placed(users, shares, g)
    ensures WantedRows(wanted[Target(users, shares, g) := Wanted(g)], users, shares, done + {g})
  {
    hide Wanted;
    hide Placed;
  }

  lemma TargetsSeparate(users: map<string, User>, shares: map<string, Share>, docs: seq<DocShare>)
    requires forall a, b :: a in users && b in users && users[a].id == users[b].id ==> a == b
    requires forall a, b :: a in shares && b in shares && shares[a].id == shares[b].id ==> a == b
    requires Distinct(docs, DocSlug) && forall d :: d in docs ==> ValidDocPermissions(d.permissions)
    ensures SeparateTargets(users, shares, GrantPairs(docs))
  {
    hide NormalizeUsername;
  }

  function NormalizedKey(n: string): Key { Key(NormalizeUsername(n), "") }

  /** The permission rows of one share of the document. */
  method ImportShare(rows: map<(ID, ID), SharePermission>, users: map<string, User>, shares: map<string, Share>, d: DocShare,
                     stamp: Timestamp, ghost old': map<(ID, ID), SharePermission>, ghost wanted: map<(ID, ID), Permission>,
                     ghost done: set<(DocShare, string)>, ghost all: set<(DocShare, string)>)
    returns (r: Result<map<(ID, ID), SharePermission>>, ghost wanted': map<(ID, ID), Permission>)
    requires d.slug in shares && SeparateTargets(users, shares, all) && done <= all
    requires forall n :: n in d.permissions ==> (d, n) in all
    requires rows == LaidOver(old', wanted, stamp) && WantedRows(wanted, users, shares, done)
    ensures r.Success? <==> forall n :: n in d.permissions ==> Placed(users, shares, (d, n))
    ensures r.Success? ==>
              && r.value == LaidOver(old', wanted', stamp)
              && WantedRows(wanted', users, shares, done + GrantPairs([d]))
  {
    hide WantedRows;
    hide LaidOver;
    hide SeparateTargets;
    hide NormalizeUsername;
    hide ParsePermission;
    hide NamePairs;
    hide Placed;
    hide Target;
    hide Wanted;
    hide OverlaidPermission;
    var after := rows;
    wanted' := wanted;
    var names := SortedKeys(d.permissions.Keys, NormalizedKey);
    NoNames(d, done);
    assert names[..0] == [];
    for j := 0 to |names|
      invariant after == LaidOver(old', wanted', stamp) && WantedRows(wanted', users, shares, done + NamePairs(d, names[..j]))
      invariant forall h :: 0 <= h < j ==> Placed(users, shares, (d, names[h]))
    {
      var name := names[j];
      assert name in Elements(names);
      ghost var g := (d, name);
      PlacedTested(users, shares, d, name);
      var normalized := NormalizeUsername(name);
      if normalized !in users { return Failure, wanted'; }
      var permission := ParsePermission(d.permissions[name]);
      if permission.None? { return Failure, wanted'; }
      var k := (shares[d.slug].id, users[normalized].id);
      NamePairsStep(d, names, j, done, all);
      LaidStep(old', wanted', k, permission.value, stamp);
      WantedStep(wanted', users, shares, done + NamePairs(d, names[..j]), all, g);
      after := after[k := OverlaidPermission(after, k, permission.value, stamp)];
      wanted' := wanted'[k := permission.value];
    }
    assert names[..|names|] == names;
    AllNames(d, names);
    return Success(after), wanted';
  }

  ghost function NamePairs(d: DocShare, names: seq<string>): set<(DocShare, string)> { set n | n in names :: (d, n) }

  lemma NoNames(d: DocShare, done: set<(DocShare, string)>)
    ensures done + NamePairs(d, []) == done
  {
  }

  lemma PlacedTested(users: map<string, User>, shares: map<string, Share>, d: DocShare, n: string)
    requires d.slug in shares && n in d.permissions
    ensures Placed(users, shares, (d, n)) <==> NormalizeUsername(n) in users && ParsePermission(d.permissions[n]).Some?
    ensures Placed(users, shares, (d, n)) ==>
              && Target(users, shares, (d, n)) == (shares[d.slug].id, users[NormalizeUsername(n)].id)
              && Wanted((d, n)) == ParsePermission(d.permissions[n]).value
  {
    hide NormalizeUsername;
    hide ParsePermission;
  }

  lemma NamePairsStep(d: DocShare, names: seq<string>, j: nat, done: set<(DocShare, string)>, all: set<(DocShare, string)>)
    requires j < |names| && done <= all && forall n :: n in names ==> (d, n) in all
    ensures done + NamePairs(d, names[..j]) <= all && (d, names[j]) in all
    ensures done + NamePairs(d, names[..j + 1]) == done + NamePairs(d, names[..j]) + {(d, names[j])}
  {
  }

  lemma AllNames(d: DocShare, names: seq<string>)
    requires Elements(names) == d.permissions.Keys
    ensures NamePairs(d, names) == GrantPairs([d])
    ensures forall n :: n in d.permissions ==> n in names
  {
  }

  lemma PairsStep(docs: seq<DocShare>, i: nat)
    requires i < |docs|
    ensures GrantPairs(docs[..i + 1]) == GrantPairs(docs[..i]) + GrantPairs([docs[i]])
  {
  }

  method ImportPermissions(old': map<(ID, ID), SharePermission>, users: map<string, User>, shares: map<string, Share>,
                           docs: seq<DocShare>, stamp: Timestamp)
    returns (r: Result<map<(ID, ID), SharePermission>>, count: nat)
    requires forall d :: d in docs ==> d.slug in shares
    requires SeparateTargets(users, shares, GrantPairs(docs))
    ensures r.Success? <==> forall g :: g in GrantPairs(docs) ==> Placed(users, shares, g)
    ensures r.Success? ==> PermissionsOverlaid(old', users, shares, GrantPairs(docs), stamp, r.value)
                           && count == TotalPermissions(docs)
  {
    hide SeparateTargets;
    hide NormalizeUsername;
    hide ParsePermission;
    var rows := old';
    count := 0;
    ghost var wanted: map<(ID, ID), Permission> := map[];
    ghost var all := GrantPairs(docs);
    assert rows == LaidOver(old', wanted, stamp);
    assert GrantPairs(docs[..0]) == {};
    for i := 0 to |docs|
      invariant rows == LaidOver(old', wanted, stamp) && WantedRows(wanted, users, shares, GrantPairs(docs[..i]))
      invariant count == TotalPermissions(docs[..i])
    {
      hide WantedRows;
      hide LaidOver;
      hide Placed;
      var d := docs[i];
      assert d in docs && docs[..i + 1][..i] == docs[..i];
      PairsStep(docs, i);
      assert GrantPairs(docs[..i]) <= all;
      var share;
      share, wanted := ImportShare(rows, users, shares, d, stamp, old', wanted, GrantPairs(docs[..i]), all);
      if share.Failure? {
        ghost var n :| n in d.permissions && !Placed(users, shares, (d, n));
        assert (d, n) in all;
        return Failure, count;
      }
      rows, count := share.value, count + |d.permissions|;
    }
    assert docs[..|docs|] == docs;
    return Success(rows), count;
  }

  lemma UpsertsKeepIDs(seed: ImportSeed)
    ensures KeepsID(UserUpsert(seed)) && KeepsID(ShareUpsert(seed))
  {
  }

  /** Identifiers stay unique. */
  lemma UpsertedUnique<D(!new), R(!new)>(o: Upsert<D, R>, old': map<string, R>, docs: seq<D>, rows: map<string, R>)
    requires Distinct(docs, o.key) && KeepsID(o) && Upserted(o, old', docs, rows) && Insertable(o, old', docs)
    requires forall a, b :: a in old' && b in old' && o.id(old'[a]) == o.id(old'[b]) ==> a == b
    ensures forall a, b :: a in rows && b in rows && o.id(rows[a]) == o.id(rows[b]) ==> a == b
  {
    forall a, b | a in rows && b in rows && o.id(rows[a]) == o.id(rows[b]) ensures a == b {
      if a in old' && b in old' {
        UpsertedOld(o, old', docs, rows, a);
        UpsertedOld(o, old', docs, rows, b);
      } else if a in old' {
        UpsertedOld(o, old', docs, rows, a);
        var i := UpsertedNew(o, old', docs, rows, b);
      } else if b in old' {
        UpsertedOld(o, old', docs, rows, b);
        var i := UpsertedNew(o, old', docs, rows, a);
      } else {
        var i := UpsertedNew(o, old', docs, rows, a);
        var j := UpsertedNew(o, old', docs, rows, b);
      }
    }
  }

  lemma UpsertedOld<D(!new), R(!new)>(o: Upsert<D, R>, old': map<string, R>, docs: seq<D>, rows: map<string, R>, k: string)
    requires KeepsID(o) && Upserted(o, old', docs, rows) && k in old'
    ensures k in rows && o.id(rows[k]) == o.id(old'[k])
  {
  }

  lemma UpsertedNew<D(!new), R(!new)>(o: Upsert<D, R>, old': map<string, R>, docs: seq<D>, rows: map<string, R>, k: string)
    returns (i: nat)
    requires Upserted(o, old', docs, rows) && k in rows && k !in old'
    ensures i < |docs| && o.key(docs[i]) == k && rows[k] == o.create(docs[i])
  {
    var d :| d in docs && o.key(d) == k;
    i :| 0 <= i < |docs| && docs[i] == d;
  }

  /** What a document's own validation provides to the transaction. */
  ghost predicate Wellformed(d: Document) {
    && Distinct(d.users, DocNormalized) && Distinct(d.shares, DocSlug)
    && forall s :: s in d.shares ==> ValidDocPermissions(s.permissions)
  }

  class ConfigRepository {
    const db: Database

    constructor (db: Database)
      ensures this.db == db
    {
      this.db := db;
    }

    /** Import: on error, also of the database, nothing changes; on success the state is the old one overridden by the
        document. */
    method Import(seed: ImportSeed, fails: bool) returns (r: Result<ImportResult>)
      requires Sound(db.tables) && Wellformed(seed.document)
      modifies db
      ensures r.Success? <==> !fails && Importable(old(db.tables), seed)
      ensures r.Failure? ==> db.View() == old(db.View())
      ensures r.Success? ==>
                && Overlaid(old(db.tables), seed, db.tables)
                && db.View() == old(db.View()).(tables := db.tables, dirty := old(db.dirty) || Writes(seed.document))
                && Counted(old(db.tables), seed.document, r.value,
                           NewRows(UserUpsert(seed), old(db.tables.users), seed.document.users),
                           NewRows(ShareUpsert(seed), old(db.tables.shares), seed.document.shares))
    {
      hide Insertable;
      hide Upserted;
      hide Placed;
      hide ValidDocPermissions;
      hide NewRows;
      hide Sound;
      hide TLSImportable;
      hide TLSOverlaid;
      hide PermissionsOverlaid;
      hide TotalPermissions;
      hide NormalizeUsername;
      hide ParsePermission;
      var d, t := seed.document, db.tables;
      var settings := t.settings;
      if d.server.Some? {
        var s := d.server.value;
        settings := settings.(publicBasePath := s.publicBasePath, httpPort := s.httpPort, httpsPort := s.httpsPort,
          runtimeMode := s.runtimeMode, updatedAt := seed.timestamp);
      }
      var tls := ImportTLS(t, d.tls, seed);
      if tls.Failure? { return Failure; }
      UpsertsKeepIDs(seed);
      var users, newUsers, usersUpdated := UpsertRows(UserUpsert(seed), t.users, d.users);
      if users.Failure? { return Failure; }
      var shares, newShares, sharesUpdated := UpsertRows(ShareUpsert(seed), t.shares, d.shares);
      if shares.Failure? { return Failure; }
      ImportedTables(t, seed, users.value, shares.value);
      var permissions, upserted := ImportPermissions(t.permissions, users.value, shares.value, d.shares, seed.timestamp);
      if permissions.Failure? || fails { return Failure; }
      db.tables := Tables(settings, tls.value, t.providers, users.value, shares.value, permissions.value);
      if d.server.Some? || d.tls.Some? || |d.users| > 0 || |d.shares| > 0 { db.dirty := true; }
      return Success(ImportResult(d.server.Some?, d.tls.Some?, |newUsers|, usersUpdated, |newShares|, sharesUpdated,
                                  upserted, Map(UsernameOf, newUsers)));
    }
  }

  /** After the row loops, grants concern separate rows, and they can be placed exactly when the document is importable. */
  lemma ImportedTables(t: Tables, seed: ImportSeed, users: map<string, User>, shares: map<string, Share>)
    requires Sound(t) && Wellformed(seed.document)
    requires Insertable(UserUpsert(seed), t.users, seed.document.users)
    requires Upserted(UserUpsert(seed), t.users, seed.document.users, users)
    requires Insertable(ShareUpsert(seed), t.shares, seed.document.shares)
    requires Upserted(ShareUpsert(seed), t.shares, seed.document.shares, shares)
    ensures SeparateTargets(users, shares, GrantPairs(seed.document.shares))
    ensures forall d :: d in seed.document.shares ==> d.slug in shares
    ensures forall a, b :: a in users && b in users && users[a].id == users[b].id ==> a == b
    ensures forall a, b :: a in shares && b in shares && shares[a].id == shares[b].id ==> a == b
    ensures (forall g :: g in GrantPairs(seed.document.shares) ==> Placed(users, shares, g)) <==>
            forall g :: g in GrantPairs(seed.document.shares) ==>
              && (NormalizeUsername(g.1) in t.users || NormalizeUsername(g.1) in Image(DocNormalized, seed.document.users))
              && ParsePermission(g.0.permissions[g.1]).Some?
  {
    hide NormalizeUsername;
    hide ParsePermission;
    hide ValidDocPermissions;
    UpsertsKeepIDs(seed);
    UpsertedUnique(UserUpsert(seed), t.users, seed.document.users, users);
    UpsertedUnique(ShareUpsert(seed), t.shares, seed.document.shares, shares);
    TargetsSeparate(users, shares, seed.document.shares);
    forall d | d in seed.document.shares ensures d.slug in shares {
      assert DocSlug(d) in Image(DocSlug, seed.document.shares);
    }
  }
}
