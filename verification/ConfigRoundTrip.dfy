/** Export and import undo each other. */
module ConfigRoundTrip {
  import opened Ordering
  import opened Domain
  import opened Snapshot
  import opened Identity
  import opened Tables
  import opened ConfigFile
  import opened ConfigImport
  import opened ImportProperties

  // ----- export, then import into the same tables -------------------------------------------

  lemma ExportedUser(t: Tables, d: Document, u: DocUser)
    requires Sound(t) && Valid(Load(t)) && Exported(d, Load(t)) && u in d.users
    ensures UserAgrees(t, u)
  {
    hide NormalizeUsername;
    LoadRows(t);
    SortedMapElements(Load(t).users, DocUserOf, DocUserKey);
    var v :| v in Load(t).users && DocUserOf(v) == u;
    var k :| k in t.users && t.users[k] == v;
    UserNormalForm(v);
  }

  lemma ExportedShare(t: Tables, d: Document, s: DocShare) returns (k: string)
    requires Exported(d, Load(t)) && s in d.shares && Sound(t)
    ensures k in t.shares && k == s.slug && ShareExported(s, Load(t).users, ItemOf(t, t.shares[k])) && ShareAgrees(t, s)
  {
    hide PermissionsExported;
    LoadRows(t);
    var item :| item in Load(t).shares && ShareExported(s, Load(t).users, item);
    k :| k in t.shares && ItemOf(t, t.shares[k]) == item;
  }

  /** A loaded user is the row stored under the normalized form of their name. */
  lemma LoadedUser(t: Tables, id: ID, n: string)
    requires Sound(t) && Valid(Load(t)) && KnownUser(Load(t).users, id) && NameOf(Load(t).users, id) == n
    ensures NormalizeUsername(n) in t.users && t.users[NormalizeUsername(n)].id == id && t.users[NormalizeUsername(n)].username == n
  {
    hide NormalizeUsername;
    LoadRows(t);
    var u :| u in Load(t).users && u.id == id && u.username == NameOf(Load(t).users, id);
    var k :| k in t.users && t.users[k] == u;
    UserNormalForm(u);
  }

  /** The permission row behind a name of an exported share. */
  lemma RowOfName(t: Tables, share: Share, s: DocShare, n: string) returns (u: ID)
    requires Sound(t) && ShareExported(s, Load(t).users, ItemOf(t, share)) && n in s.permissions
    ensures (share.id, u) in t.permissions && KnownUser(Load(t).users, u) && NameOf(Load(t).users, u) == n
    ensures ParsePermission(s.permissions[n]) == Some(t.permissions[(share.id, u)].permission)
  {
    hide Load;
    hide NameOf;
    hide KnownUser;
    hide PermissionValue;
    hide ParsePermission;
    hide Rows;
    var p :| p in ItemOf(t, share).permissions && Names(Load(t).users, p, n);
    PermissionRows(t, share.id);
    u :| (share.id, u) in t.permissions && t.permissions[(share.id, u)] == p;
    PermissionRoundTrip(p.permission, s.permissions[n]);
  }

  lemma ExportedGrant(t: Tables, d: Document, s: DocShare, n: string)
    requires Sound(t) && Valid(Load(t)) && Exported(d, Load(t)) && s in d.shares && n in s.permissions
    ensures GrantAgrees(t, (s, n))
  {
    hide NormalizeUsername;
    hide Valid;
    hide Load;
    hide NameOf;
    hide KnownUser;
    hide ParsePermission;
    hide Exported;
    hide Sound;
    hide ShareExported;
    var k := ExportedShare(t, d, s);
    var u := RowOfName(t, t.shares[k], s, n);
    LoadedUser(t, u, n);
  }

  lemma ExportedTLS(t: Tables, d: Document)
    requires Sound(t) && Exported(d, Load(t)) && d.tls.Some?
    ensures t.tls.Some? && TLSAgrees(t, d.tls.value, t.tls.value)
  {
    LoadRows(t);
  }

  lemma ExportAgrees(t: Tables, d: Document)
    requires Sound(t) && Valid(Load(t)) && Exported(d, Load(t))
    ensures Agrees(t, d)
  {
    hide UserAgrees;
    hide GrantAgrees;
    forall u | u in d.users ensures UserAgrees(t, u) { ExportedUser(t, d, u); }
    forall s | s in d.shares ensures ShareAgrees(t, s) { var _ := ExportedShare(t, d, s); }
    forall g | g in GrantPairs(d.shares) ensures GrantAgrees(t, g) { ExportedGrant(t, d, g.0, g.1); }
    if d.tls.Some? { ExportedTLS(t, d); }
  }

  /** Every valid state exports to a valid document, and importing that document back succeeds, creates
      nothing and leaves the semantic identity unchanged. */
  lemma ExportThenImport(t: Tables, d: Document, seed: ImportSeed, t': Tables)
    requires Sound(t) && Valid(Load(t)) && Exported(d, Load(t))
    requires seed.document == d && GoodSeed(t, seed) && Overlaid(t, seed, t')
    ensures ValidDocument(d) && Importable(t, seed)
    ensures NewRows(UserUpsert(seed), t.users, d.users) == [] && NewRows(ShareUpsert(seed), t.shares, d.shares) == []
    ensures StateHashed(Load(t')).Success? && StateHashed(Load(t')) == StateHashed(Load(t))
  {
    hide Agrees;
    hide Overlaid;
    hide Importable;
    hide GoodSeed;
    hide Valid;
    hide ValidDocument;
    hide Exported;
    ExportedValid(d, Load(t));
    ExportAgrees(t, d);
    AgreesImportable(t, seed);
    LoadDistinct(t);
    assert UniqueProviderNames(t) by { LoadValid(t); }
    AgreesFixed(t, seed, t');
    ImportStaysValid(t, seed, t');
    IdentityExact(Load(t), Load(t'));
    CanonicalValid(Load(t'));
  }

  // ----- import into an empty store, then export ------------------------------------------------

  /** A store that holds settings and DNS providers only. */
  ghost predicate Blank(t: Tables) {
    t.users == map[] && t.shares == map[] && t.permissions == map[] && t.tls.None?
  }

  /** d names every user it grants something to, spelled as in its user list. */
  ghost predicate Closed(d: Document) {
    forall g :: g in GrantPairs(d.shares) ==> exists u :: u in d.users && u.username == g.1
  }

  lemma ExportedName(us: seq<User>, item: ShareItem, s: DocShare, n: string)
    requires ShareExported(s, us, item) && n in s.permissions
    ensures exists u :: u in us && u.username == n
  {
  }

  lemma ExportedNames(x: State, d: Document, s: DocShare, n: string)
    requires Exported(d, x) && s in d.shares && n in s.permissions
    ensures exists u :: u in x.users && u.username == n
  {
    hide ShareExported;
    hide TLSExported;
    var item :| item in x.shares && ShareExported(s, x.users, item);
    ExportedName(x.users, item, s, n);
  }

  lemma ExportClosed(x: State, d: Document)
    requires Exported(d, x)
    ensures Closed(d)
  {
    hide TLSExported;
    SortedMapElements(x.users, DocUserOf, DocUserKey);
    forall g | g in GrantPairs(d.shares) ensures exists u :: u in d.users && u.username == g.1 {
      ExportedNames(x, d, g.0, g.1);
      var u :| u in x.users && u.username == g.1;
      assert DocUserOf(u) in d.users;
    }
  }

  /** New identifiers for everything in the document, pairwise different. */
  ghost predicate FreshSeed(seed: ImportSeed) {
    && (forall u :: u in seed.document.users ==>
          Get(seed.userIDs, DocNormalized(u)) != "" && Get(seed.userHashes, DocNormalized(u)) != "")
    && (forall s :: s in seed.document.shares ==> Get(seed.shareIDs, s.slug) != "")
    && (forall m, n :: m in seed.userIDs && n in seed.userIDs && seed.userIDs[m] == seed.userIDs[n] ==> m == n)
    && (forall m, n :: m in seed.shareIDs && n in seed.shareIDs && seed.shareIDs[m] == seed.shareIDs[n] ==> m == n)
  }

  lemma BlankImportable(b: Tables, seed: ImportSeed)
    requires Blank(b) && FreshSeed(seed) && ValidDocument(seed.document) && Closed(seed.document)
    requires TLSImportable(b, seed.document.tls)
    ensures Importable(b, seed)
  {
    hide NormalizeUsername;
    hide ValidDocUser;
    hide ValidDocShare;
    hide ParsePermission;
    var d := seed.document;
    forall i, j | 0 <= i < j < |d.users| ensures Get(seed.userIDs, DocNormalized(d.users[i])) != Get(seed.userIDs, DocNormalized(d.users[j])) {
      assert d.users[i] in d.users && d.users[j] in d.users;
    }
    forall i, j | 0 <= i < j < |d.shares| ensures Get(seed.shareIDs, d.shares[i].slug) != Get(seed.shareIDs, d.shares[j].slug) {
      assert d.shares[i] in d.shares && d.shares[j] in d.shares;
      assert DocSlug(d.shares[i]) != DocSlug(d.shares[j]);
    }
    forall g | g in GrantPairs(d.shares)
      ensures NormalizeUsername(g.1) in Image(DocNormalized, d.users) && ParsePermission(g.0.permissions[g.1]).Some?
    {
      var u :| u in d.users && u.username == g.1;
      assert DocNormalized(u) in Image(DocNormalized, d.users);
      assert ValidDocPermissions(g.0.permissions);
    }
  }

  /** After importing into a blank store, the users are the document's. */
  lemma BlankUsers(b: Tables, seed: ImportSeed, b': Tables)
    requires Blank(b) && ValidDocument(seed.document) && Overlaid(b, seed, b')
    ensures forall u :: u in seed.document.users <==> exists k :: k in b'.users && DocUserOf(b'.users[k]) == u
    ensures forall k :: k in b'.users ==> b'.users[k].normalized == k && NormalizeUsername(b'.users[k].username) == k
  {
    hide NormalizeUsername;
    hide User.Valid;
    hide ParsePermission;
    var o, docs := UserUpsert(seed), seed.document.users;
    forall u | u in docs ensures DocNormalized(u) in b'.users && DocUserOf(b'.users[DocNormalized(u)]) == u {
      assert o.key(u) in Image(o.key, docs);
      assert ValidDocUser(u);
    }
    forall k | k in b'.users
      ensures DocUserOf(b'.users[k]) in docs && b'.users[k].normalized == k && NormalizeUsername(b'.users[k].username) == k
    {
      var u :| u in docs && o.key(u) == k;
      assert b'.users[k] == o.create(u);
      assert ValidDocUser(u);
    }
  }

  lemma BlankShares(b: Tables, seed: ImportSeed, b': Tables)
    requires Blank(b) && ValidDocument(seed.document) && Overlaid(b, seed, b')
    ensures forall s :: s in seed.document.shares ==>
              && s.slug in b'.shares
              && var share := b'.shares[s.slug];
                 share.name == s.name && share.slug == s.slug && share.path == s.path && Some(share.enabled) == s.enabled
    ensures forall k :: k in b'.shares ==> exists s :: s in seed.document.shares && s.slug == k
  {
    hide Share.Valid;
    hide ValidDocUser;
    hide ValidDocPermissions;
    var o, docs := ShareUpsert(seed), seed.document.shares;
    forall s | s in docs ensures s.slug in b'.shares && b'.shares[s.slug] == o.create(s) && s.enabled.Some? {
      assert o.key(s) in Image(o.key, docs);
      assert ValidDocShare(s);
    }
  }

  /** A granted user of the imported store carries the name the document spells. */
  lemma GrantedName(d: Document, b': Tables, g: (DocShare, string))
    requires Sound(b') && Valid(Load(b')) && Agrees(b', d) && Closed(d) && g in GrantPairs(d.shares)
    ensures Placed(b'.users, b'.shares, g)
    ensures var u := b'.users[NormalizeUsername(g.1)];
            u.username == g.1 && KnownUser(Load(b').users, u.id) && NameOf(Load(b').users, u.id) == g.1
  {
    hide NormalizeUsername;
    hide Rows;
    assert GrantAgrees(b', g);
    var w :| w in d.users && w.username == g.1;
    assert UserAgrees(b', w);
    var u := b'.users[NormalizeUsername(g.1)];
    LoadRows(b');
    assert u in Load(b').users;
    NameUnique(Load(b').users, u);
  }

  lemma PermissionKept(d: Document, b': Tables, s: DocShare, s': DocShare, n: string)
    requires Sound(b') && Valid(Load(b')) && Agrees(b', d) && Closed(d) && s in d.shares && n in s.permissions
    requires s.slug in b'.shares && ShareExported(s', Load(b').users, ItemOf(b', b'.shares[s.slug]))
    ensures n in s'.permissions && s'.permissions[n] == s.permissions[n]
  {
    hide NormalizeUsername;
    hide Valid;
    hide Load;
    hide NameOf;
    hide KnownUser;
    hide PermissionValue;
    hide ParsePermission;
    hide Closed;
    var g := (s, n);
    assert g in GrantPairs(d.shares);
    GrantedName(d, b', g);
    assert GrantAgrees(b', g);
    var share, u := b'.shares[s.slug], b'.users[NormalizeUsername(n)];
    var p := b'.permissions[(share.id, u.id)];
    PermissionRows(b', share.id);
    assert p in ItemOf(b', share).permissions;
    PermissionRoundTrip(p.permission, s.permissions[n]);
    PermissionRoundTrip(p.permission, s'.permissions[n]);
  }

  /** Every stored permission row was granted. */
  ghost predicate AllGranted(b': Tables, grants: set<(DocShare, string)>) {
    forall k :: k in b'.permissions ==>
                  exists g :: g in grants && Placed(b'.users, b'.shares, g) && Target(b'.users, b'.shares, g) == k
  }

  lemma SameShare(d: Document, b': Tables, s: DocShare, g: (DocShare, string))
    requires Sound(b') && Distinct(d.shares, DocSlug) && s in d.shares && g in GrantPairs(d.shares)
    requires s.slug in b'.shares && g.0.slug in b'.shares && b'.shares[s.slug].id == b'.shares[g.0.slug].id
    ensures g.0 == s
  {
  }

  lemma PermissionAdded(d: Document, b': Tables, s: DocShare, s': DocShare, n: string)
    requires Sound(b') && Valid(Load(b')) && Agrees(b', d) && Closed(d) && Distinct(d.shares, DocSlug)
    requires AllGranted(b', GrantPairs(d.shares))
    requires s in d.shares && s.slug in b'.shares && ShareExported(s', Load(b').users, ItemOf(b', b'.shares[s.slug]))
    requires n in s'.permissions
    ensures n in s.permissions
  {
    hide NormalizeUsername;
    hide Valid;
    hide Load;
    hide NameOf;
    hide KnownUser;
    hide ParsePermission;
    hide Closed;
    hide Agrees;
    hide ShareExported;
    hide Sound;
    var share := b'.shares[s.slug];
    var u := RowOfName(b', share, s', n);
    var g :| g in GrantPairs(d.shares) && Placed(b'.users, b'.shares, g) && Target(b'.users, b'.shares, g) == (share.id, u);
    GrantedName(d, b', g);
    SameShare(d, b', s, g);
  }

  /** The premises of a re-export: d is imported into the blank store b, giving b'. */
  ghost predicate Reimported(d: Document, b: Tables, seed: ImportSeed, b': Tables) {
    && ValidDocument(d) && Closed(d) && Blank(b) && seed.document == d && Overlaid(b, seed, b')
    && Sound(b') && Valid(Load(b'))
  }

  lemma BlankPermissions(d: Document, b: Tables, seed: ImportSeed, b': Tables)
    requires Blank(b) && seed.document == d && Overlaid(b, seed, b')
    ensures AllGranted(b', GrantPairs(d.shares))
  {
  }

  lemma PermissionsReexported(d: Document, b': Tables, s: DocShare, s': DocShare)
    requires Sound(b') && Valid(Load(b')) && Agrees(b', d) && Closed(d) && Distinct(d.shares, DocSlug)
    requires AllGranted(b', GrantPairs(d.shares))
    requires s in d.shares && s.slug in b'.shares && ShareExported(s', Load(b').users, ItemOf(b', b'.shares[s.slug]))
    ensures s'.permissions == s.permissions
  {
    hide Valid;
    hide Load;
    hide Closed;
    hide Agrees;
    hide ShareExported;
    hide Sound;
    hide AllGranted;
    forall n ensures n in s'.permissions <==> n in s.permissions {
      if n in s.permissions { PermissionKept(d, b', s, s', n); }
      if n in s'.permissions { PermissionAdded(d, b', s, s', n); }
    }
    forall n | n in s.permissions ensures s'.permissions[n] == s.permissions[n] {
      PermissionKept(d, b', s, s', n);
    }
  }

  lemma ShareReexported(d: Document, b: Tables, seed: ImportSeed, b': Tables, s: DocShare, s': DocShare)
    requires Reimported(d, b, seed, b') && s in d.shares
    requires s.slug in b'.shares && ShareExported(s', Load(b').users, ItemOf(b', b'.shares[s.slug]))
    ensures s' == s
  {
    hide Load;
    hide Valid;
    hide ValidDocUser;
    hide ValidDocShare;
    hide ValidDocPermissions;
    hide Overlaid;
    hide Closed;
    hide Agrees;
    hide Sound;
    hide AllGranted;
    hide PermissionsExported;
    BlankShares(b, seed, b');
    BlankPermissions(d, b, seed, b');
    ImportAgrees(b, seed, b');
    PermissionsReexported(d, b', s, s');
  }

  lemma ShareListed(d: Document, b: Tables, seed: ImportSeed, b': Tables, d': Document, s: DocShare)
    requires Reimported(d, b, seed, b') && Exported(d', Load(b')) && s in d.shares
    ensures s in d'.shares
  {
    hide ShareExported;
    BlankShares(b, seed, b');
    hide Reimported;
    var item := ItemOf(b', b'.shares[s.slug]);
    assert item in Load(b').shares by { LoadRows(b'); }
    hide Load;
    hide ItemOf;
    var s' :| s' in d'.shares && ShareExported(s', Load(b').users, item);
    hide Exported;
    ShareReexported(d, b, seed, b', s, s');
  }

  lemma ListedShare(d: Document, b: Tables, seed: ImportSeed, b': Tables, d': Document, s': DocShare)
    requires Reimported(d, b, seed, b') && Exported(d', Load(b')) && s' in d'.shares
    ensures s' in d.shares
  {
    hide ShareExported;
    var k := ExportedShare(b', d', s');
    hide Reimported;
    hide Exported;
    hide Load;
    hide ItemOf;
    var s := ImportedFrom(d, b, seed, b', k);
    ShareReexported(d, b, seed, b', s, s');
  }

  lemma ImportedFrom(d: Document, b: Tables, seed: ImportSeed, b': Tables, k: string) returns (s: DocShare)
    requires Reimported(d, b, seed, b') && k in b'.shares
    ensures s in d.shares && s.slug == k
  {
    BlankShares(b, seed, b');
    s :| s in d.shares && s.slug == k;
  }

  lemma ExportedOrder(d: Document, x: State)
    requires Exported(d, x)
    ensures Ascending(d.shares, DocShareKey)
  {
  }

  lemma SharesReexported(d: Document, b: Tables, seed: ImportSeed, b': Tables, d': Document)
    requires Reimported(d, b, seed, b') && Exported(d', Load(b')) && Ascending(d.shares, DocShareKey)
    ensures d'.shares == d.shares
  {
    hide Exported;
    hide Reimported;
    hide Load;
    forall s | s in d.shares ensures s in d'.shares { ShareListed(d, b, seed, b', d', s); }
    forall s | s in d'.shares ensures s in d.shares { ListedShare(d, b, seed, b', d', s); }
    ExportedOrder(d', Load(b'));
    SameMembers(d'.shares, d.shares, DocShareKey);
  }

  lemma UsersReexported(d: Document, b: Tables, seed: ImportSeed, b': Tables, d': Document)
    requires Reimported(d, b, seed, b') && Exported(d', Load(b')) && Ascending(d.users, DocUserKey)
    ensures d'.users == d.users
  {
    hide Overlaid;
    hide Closed;
    hide ValidDocument;
    hide ValidAccess;
    hide ValidShares;
    hide ValidProviders;
    hide ValidTLS;
    BlankUsers(b, seed, b');
    LoadRows(b');
    ExportedUsersValid(Load(b').users);
    hide Load;
    hide ValidUsers;
    var us := Load(b').users;
    forall u | u in d.users ensures u in d'.users {
      var k :| k in b'.users && DocUserOf(b'.users[k]) == u;
      assert b'.users[k] in us;
    }
    forall u | u in d'.users ensures u in d.users {
      var v :| v in us && DocUserOf(v) == u;
      var k :| k in b'.users && b'.users[k] == v;
    }
    SameMembers(d'.users, d.users, DocUserKey);
  }

  lemma TLSReexported(d: Document, b: Tables, seed: ImportSeed, b': Tables, d': Document)
    requires Reimported(d, b, seed, b') && Exported(d', Load(b'))
    ensures if d.tls.None? then d'.tls.None?
            else d'.tls == Some(d.tls.value.(challenge := EffectiveChallenge(d.tls.value.challenge)))
  {
    hide Upserted;
    hide PermissionsOverlaid;
    hide Valid;
    hide ValidDocument;
    hide Closed;
    LoadRows(b');
    hide Rows;
  }

  /** Importing the document of a valid state into a store that holds only settings and the same-named DNS
      providers succeeds, and the store then exports the same document, unless the state had a TLS profile
      with a blank challenge, which comes back spelled out as auto. */
  lemma ImportThenExport(x: State, d: Document, b: Tables, seed: ImportSeed, b': Tables, d': Document)
    requires Valid(x) && Exported(d, x)
    requires Blank(b) && Sound(b) && Valid(Load(b)) && forall p :: p in x.providers ==> exists id :: ProviderNamed(b.providers, id, p.name)
    requires seed.document == d && FreshSeed(seed) && GoodSeed(b, seed)
    requires Overlaid(b, seed, b') && Exported(d', Load(b'))
    ensures Importable(b, seed)
    ensures d' == d <==> !(x.tls.Some? && x.tls.value.challenge.Blank?)
  {
    hide Load;
    hide GoodSeed;
    hide Sound;
    hide FreshSeed;
    ExportedValid(d, x);
    ExportClosed(x, d);
    assert TLSImportable(b, d.tls);
    ExportedUsersValid(x.users);
    hide Valid;
    hide ValidDocument;
    hide Closed;
    BlankImportable(b, seed);
    ImportStaysValid(b, seed, b');
    SharesReexported(d, b, seed, b', d');
    UsersReexported(d, b, seed, b', d');
    TLSReexported(d, b, seed, b', d');
    ServerReexported(d, b, seed, b', d');
  }

  /** What one store exports, another imports and exports again unchanged: the tables hold no blank challenge. */
  lemma StoreToStore(t: Tables, d: Document, b: Tables, seed: ImportSeed, b': Tables, d': Document)
    requires Sound(t) && Valid(Load(t)) && Exported(d, Load(t))
    requires Blank(b) && Sound(b) && Valid(Load(b))
    requires forall k :: k in t.providers ==> exists id :: ProviderNamed(b.providers, id, t.providers[k].name)
    requires seed.document == d && FreshSeed(seed) && GoodSeed(b, seed)
    requires Overlaid(b, seed, b') && Exported(d', Load(b'))
    ensures Importable(b, seed) && d' == d
  {
    hide Exported;
    hide Valid;
    hide Blank;
    hide FreshSeed;
    hide GoodSeed;
    hide Importable;
    hide Overlaid;
    hide ProviderNamed;
    LoadRows(t);
    assert SpelledChallenge(Load(t).tls);
    hide Load;
    hide Sound;
    ImportThenExport(Load(t), d, b, seed, b', d');
  }

  lemma ServerReexported(d: Document, b: Tables, seed: ImportSeed, b': Tables, d': Document)
    requires seed.document == d && d.server.Some? && Overlaid(b, seed, b') && Exported(d', Load(b'))
    ensures d'.server == d.server
  {
    hide Upserted;
    hide PermissionsOverlaid;
    hide TLSOverlaid;
  }
}
