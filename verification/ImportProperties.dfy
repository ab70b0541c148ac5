/** What an import keeps, repeats and undoes. */
module ImportProperties {
  import opened Ordering
  import opened Domain
  import opened Snapshot
  import opened Identity
  import opened Tables
  import opened ConfigFile
  import opened Database
  import opened ConfigImport

  // ----- agreement: importing what is already there --------------------------------------

  /** Every row of the document is already in the tables, with the same content. */
  ghost predicate Agrees(t: Tables, d: Document) {
    && (d.server.Some? ==> DocServerOf(t.settings) == d.server.value)
    && (d.tls.Some? ==> t.tls.Some? && TLSAgrees(t, d.tls.value, t.tls.value))
    && (forall u :: u in d.users ==> UserAgrees(t, u))
    && (forall s :: s in d.shares ==> ShareAgrees(t, s))
    && (forall g :: g in GrantPairs(d.shares) ==> GrantAgrees(t, g))
  }

  ghost predicate TLSAgrees(t: Tables, d: DocTLS, p: TLSProfile) {
    && p.mode == d.mode && p.hostname == d.hostname && EffectiveChallenge(p.challenge) == EffectiveChallenge(d.challenge)
    && p.certificatePath == d.certificatePath && p.privateKeyPath == d.privateKeyPath
    && if d.dnsProvider == "" then p.providerID.None?
       else p.providerID.Some? && ProviderNamed(t.providers, p.providerID.value, d.dnsProvider)
  }

  ghost predicate UserAgrees(t: Tables, d: DocUser) {
    var n := DocNormalized(d);
    n in t.users && t.users[n].username == d.username && t.users[n].enabled == Flag(d.enabled)
  }

  ghost predicate ShareAgrees(t: Tables, d: DocShare) {
    && d.slug in t.shares
    && t.shares[d.slug].name == d.name && t.shares[d.slug].path == d.path && t.shares[d.slug].enabled == Flag(d.enabled)
  }

  ghost predicate GrantAgrees(t: Tables, g: (DocShare, string)) {
    && Placed(t.users, t.shares, g) && Target(t.users, t.shares, g) in t.permissions
    && t.permissions[Target(t.users, t.shares, g)].permission == Wanted(g)
  }

  lemma NothingNew<D(!new), R>(o: Upsert<D, R>, old': map<string, R>, docs: seq<D>)
    requires forall d :: d in docs ==> o.key(d) in old'
    ensures Insertable(o, old', docs) && NewRows(o, old', docs) == []
  {
  }

  lemma AgreesImportable(t: Tables, seed: ImportSeed)
    requires Agrees(t, seed.document)
    ensures Importable(t, seed)
    ensures NewRows(UserUpsert(seed), t.users, seed.document.users) == []
    ensures NewRows(ShareUpsert(seed), t.shares, seed.document.shares) == []
  {
    hide NormalizeUsername;
    hide ParsePermission;
    hide Insertable;
    var d := seed.document;
    forall u | u in d.users ensures UserUpsert(seed).key(u) in t.users {
      assert UserAgrees(t, u);
    }
    forall s | s in d.shares ensures ShareUpsert(seed).key(s) in t.shares {
      assert ShareAgrees(t, s);
    }
    NothingNew(UserUpsert(seed), t.users, d.users);
    NothingNew(ShareUpsert(seed), t.shares, d.shares);
    forall g | g in GrantPairs(d.shares) ensures NormalizeUsername(g.1) in t.users && ParsePermission(g.0.permissions[g.1]).Some? {
      assert GrantAgrees(t, g);
    }
  }

  lemma UsersFixed(t: Tables, seed: ImportSeed, users: map<string, User>)
    requires forall u :: u in seed.document.users ==> UserAgrees(t, u)
    requires Upserted(UserUpsert(seed), t.users, seed.document.users, users)
    ensures users.Keys == t.users.Keys
    ensures forall k :: k in t.users ==> UserCoreOf(users[k]) == UserCoreOf(t.users[k])
  {
    hide NormalizeUsername;
  }

  lemma SharesFixed(t: Tables, seed: ImportSeed, shares: map<string, Share>)
    requires forall s :: s in seed.document.shares ==> ShareAgrees(t, s)
    requires Upserted(ShareUpsert(seed), t.shares, seed.document.shares, shares)
    ensures shares.Keys == t.shares.Keys
    ensures forall k :: k in t.shares ==> shares[k] == t.shares[k].(updatedAt := shares[k].updatedAt)
  {
  }

  lemma PermissionsFixed(t: Tables, users: map<string, User>, shares: map<string, Share>, grants: set<(DocShare, string)>,
                         stamp: Timestamp, rows: map<(ID, ID), SharePermission>)
    requires forall g :: g in grants ==> GrantAgrees(t, g)
    requires users.Keys == t.users.Keys && forall k :: k in t.users ==> users[k].id == t.users[k].id
    requires shares.Keys == t.shares.Keys && forall k :: k in t.shares ==> shares[k].id == t.shares[k].id
    requires PermissionsOverlaid(t.permissions, users, shares, grants, stamp, rows)
    ensures rows.Keys == t.permissions.Keys
    ensures forall k :: k in rows ==> rows[k] == t.permissions[k].(updatedAt := rows[k].updatedAt)
  {
  }

  lemma TLSFixed(t: Tables, seed: ImportSeed, tls: Option<TLSProfile>)
    requires UniqueProviderNames(t)
    requires seed.document.tls.Some? ==> t.tls.Some? && TLSAgrees(t, seed.document.tls.value, t.tls.value)
    requires TLSOverlaid(t, seed.document.tls, seed, tls)
    ensures OptionalTLSCore(tls) == OptionalTLSCore(t.tls)
  {
  }

  lemma SameRowsSameFacts(t: Tables, t': Tables)
    requires SettingsCoreOf(t'.settings) == SettingsCoreOf(t.settings) && OptionalTLSCore(t'.tls) == OptionalTLSCore(t.tls)
    requires t'.providers == t.providers
    requires t'.users.Keys == t.users.Keys && forall k :: k in t.users ==> UserCoreOf(t'.users[k]) == UserCoreOf(t.users[k])
    requires t'.shares.Keys == t.shares.Keys
    requires forall k :: k in t.shares ==> t'.shares[k] == t.shares[k].(updatedAt := t'.shares[k].updatedAt)
    requires t'.permissions.Keys == t.permissions.Keys
    requires forall k :: k in t.permissions ==> t'.permissions[k] == t.permissions[k].(updatedAt := t'.permissions[k].updatedAt)
    ensures TableFacts(t') == TableFacts(t)
  {
    forall s: Share ensures forall s': Share :: s' == s.(updatedAt := s'.updatedAt) ==> ShareFactsOf(t', s') == ShareFactsOf(t, s) {
      assert forall k :: k in t.permissions ==> GrantCoreOf(t'.permissions[k]) == GrantCoreOf(t.permissions[k]);
    }
  }

  /** Importing a document that agrees with the tables leaves the semantic identity unchanged. */
  lemma AgreesFixed(t: Tables, seed: ImportSeed, t': Tables)
    requires UniqueProviderNames(t) && Agrees(t, seed.document) && Overlaid(t, seed, t')
    ensures Facts(Load(t')) == Facts(Load(t))
  {
    hide UserAgrees;
    hide ShareAgrees;
    hide GrantAgrees;
    hide Upserted;
    hide PermissionsOverlaid;
    hide TLSAgrees;
    hide TLSOverlaid;
    UsersFixed(t, seed, t'.users);
    SharesFixed(t, seed, t'.shares);
    PermissionsFixed(t, t'.users, t'.shares, GrantPairs(seed.document.shares), seed.timestamp, t'.permissions);
    TLSFixed(t, seed, t'.tls);
    SameRowsSameFacts(t, t');
    LoadFacts(t);
    LoadFacts(t');
  }

  lemma ImportedUserAgrees(t: Tables, seed: ImportSeed, t': Tables, u: DocUser)
    requires Upserted(UserUpsert(seed), t.users, seed.document.users, t'.users) && u in seed.document.users
    ensures UserAgrees(t', u)
  {
  }

  lemma ImportedShareAgrees(t: Tables, seed: ImportSeed, t': Tables, s: DocShare)
    requires Upserted(ShareUpsert(seed), t.shares, seed.document.shares, t'.shares) && s in seed.document.shares
    ensures ShareAgrees(t', s)
  {
  }

  lemma ImportedGrantsAgree(t: Tables, seed: ImportSeed, t': Tables)
    requires PermissionsOverlaid(t.permissions, t'.users, t'.shares, GrantPairs(seed.document.shares), seed.timestamp, t'.permissions)
    ensures forall g :: g in GrantPairs(seed.document.shares) ==> GrantAgrees(t', g)
  {
    hide NormalizeUsername;
    hide ParsePermission;
    hide Wanted;
  }

  /** After an import the tables agree with the document. */
  lemma ImportAgrees(t: Tables, seed: ImportSeed, t': Tables)
    requires Overlaid(t, seed, t')
    ensures Agrees(t', seed.document)
  {
    hide UserAgrees;
    hide ShareAgrees;
    hide GrantAgrees;
    hide Upserted;
    hide PermissionsOverlaid;
    forall u | u in seed.document.users ensures UserAgrees(t', u) { ImportedUserAgrees(t, seed, t', u); }
    forall s | s in seed.document.shares ensures ShareAgrees(t', s) { ImportedShareAgrees(t, seed, t', s); }
    ImportedGrantsAgree(t, seed, t');
  }

  /** A second import of the same document, whatever new seed it brings, creates nothing and changes no identity. */
  lemma SecondImport(t: Tables, seed: ImportSeed, t1: Tables, again: ImportSeed, t2: Tables)
    requires UniqueProviderNames(t) && Overlaid(t, seed, t1)
    requires again.document == seed.document && Overlaid(t1, again, t2)
    ensures Importable(t1, again)
    ensures NewRows(UserUpsert(again), t1.users, again.document.users) == []
    ensures NewRows(ShareUpsert(again), t1.shares, again.document.shares) == []
    ensures Facts(Load(t2)) == Facts(Load(t1))
  {
    ImportAgrees(t, seed, t1);
    AgreesImportable(t1, again);
    AgreesFixed(t1, again, t2);
  }

  // ----- the imported state stays valid ---------------------------------------------------------

  /** A seed as ConfigService builds it, and a clock that is not behind any stored row. */
  ghost predicate GoodSeed(t: Tables, seed: ImportSeed) {
    && seed.timestamp != 0 && ValidID(seed.tlsID)
    && (forall u :: u in seed.document.users && DocNormalized(u) !in t.users ==>
          var n := DocNormalized(u);
          ValidID(Get(seed.userIDs, n)) && TrimSpace(Get(seed.userHashes, n)) != "" && !ContainsControl(Get(seed.userHashes, n)))
    && (forall s :: s in seed.document.shares && s.slug !in t.shares ==> ValidID(Get(seed.shareIDs, s.slug)))
    && t.settings.createdAt <= seed.timestamp && (t.tls.Some? ==> t.tls.value.createdAt <= seed.timestamp)
    && (forall k :: k in t.users ==> t.users[k].createdAt <= seed.timestamp)
    && (forall k :: k in t.shares ==> t.shares[k].createdAt <= seed.timestamp)
    && (forall k :: k in t.permissions ==> t.permissions[k].createdAt <= seed.timestamp)
  }

  /** A permission row under its key, with its foreign keys in place. */
  ghost predicate GoodPermission(t: Tables, k: (ID, ID), p: SharePermission) {
    p.Valid() && p.shareID == k.0 && p.userID == k.1 && ShareWithID(t, k.0) && UserWithID(t, k.1)
  }

  ghost predicate GoodPermissions(t: Tables) {
    forall k :: k in t.permissions ==> GoodPermission(t, k, t.permissions[k])
  }

  ghost predicate GoodUsers(t: Tables) {
    forall k :: k in t.users ==> t.users[k].Valid() && t.users[k].normalized == k
  }

  ghost predicate GoodShares(t: Tables) {
    forall k :: k in t.shares ==> t.shares[k].Valid() && t.shares[k].slug == k
  }

  lemma ImportedUsersValid(t: Tables, seed: ImportSeed, t': Tables)
    requires GoodSeed(t, seed) && GoodUsers(t)
    requires forall u :: u in seed.document.users ==> ValidDocUser(u)
    requires Upserted(UserUpsert(seed), t.users, seed.document.users, t'.users)
    ensures GoodUsers(t')
  {
    hide NormalizeUsername;
    hide TrimSpace;
    hide ContainsControl;
    hide ValidID;
  }

  lemma ImportedSharesValid(t: Tables, seed: ImportSeed, t': Tables)
    requires GoodSeed(t, seed) && GoodShares(t)
    requires forall s :: s in seed.document.shares ==> ValidDocShare(s)
    requires Upserted(ShareUpsert(seed), t.shares, seed.document.shares, t'.shares)
    ensures GoodShares(t')
  {
    hide TrimSpace;
    hide ContainsControl;
    hide ValidID;
    hide ValidSlug;
    hide IsAbsolutePath;
  }

  /** Every row of the old tables is still there under its key and identifier. */
  lemma RowsStay(t: Tables, seed: ImportSeed, t': Tables)
    requires Upserted(UserUpsert(seed), t.users, seed.document.users, t'.users)
    requires Upserted(ShareUpsert(seed), t.shares, seed.document.shares, t'.shares)
    ensures forall id :: UserWithID(t, id) ==> UserWithID(t', id)
    ensures forall id :: ShareWithID(t, id) ==> ShareWithID(t', id)
  {
  }

  lemma GrantedKey(t': Tables, g: (DocShare, string))
    requires GoodUsers(t') && GoodShares(t') && Placed(t'.users, t'.shares, g)
    ensures var k := Target(t'.users, t'.shares, g);
            ValidID(k.0) && ValidID(k.1) && ShareWithID(t', k.0) && UserWithID(t', k.1)
    ensures !Wanted(g).UnknownPermission?
  {
    hide NormalizeUsername;
    hide ValidID;
  }

  lemma ImportedPermissionsValid(t: Tables, seed: ImportSeed, t': Tables)
    requires seed.timestamp != 0 && forall k :: k in t.permissions ==> t.permissions[k].createdAt <= seed.timestamp
    requires forall k :: k in t.permissions ==> GoodPermission(t', k, t.permissions[k])
    requires GoodUsers(t') && GoodShares(t')
    requires PermissionsOverlaid(t.permissions, t'.users, t'.shares, GrantPairs(seed.document.shares), seed.timestamp, t'.permissions)
    ensures GoodPermissions(t')
  {
    hide NormalizeUsername;
    hide ValidID;
    hide Target;
    hide Wanted;
    hide GoodUsers;
    hide GoodShares;
    hide ShareWithID;
    hide UserWithID;
    var wanted :| WantedRows(wanted, t'.users, t'.shares, GrantPairs(seed.document.shares))
      && t'.permissions == LaidOver(t.permissions, wanted, seed.timestamp);
    forall k | k in t'.permissions ensures GoodPermission(t', k, t'.permissions[k]) {
      if k in wanted {
        var g :| g in GrantPairs(seed.document.shares) && Target(t'.users, t'.shares, g) == k;
        GrantedKey(t', g);
        assert wanted[k] == Wanted(g);
        assert t'.permissions[k] == OverlaidPermission(t.permissions, k, wanted[k], seed.timestamp);
      } else {
        assert t'.permissions[k] == t.permissions[k];
      }
    }
  }

  lemma ImportedTLSValid(t: Tables, seed: ImportSeed, tls: Option<TLSProfile>)
    requires GoodSeed(t, seed) && ValidRows(t) && (forall k :: k in t.providers ==> t.providers[k].id == k)
    requires seed.document.tls.Some? ==> PlaceholderProfile(seed.document.tls.value).Valid()
    requires TLSOverlaid(t, seed.document.tls, seed, tls) && SpelledChallenge(t.tls)
    ensures SpelledChallenge(tls)
    ensures tls.Some? ==>
              && tls.value.Valid()
              && (tls.value.challenge.Dns? ==> tls.value.providerID.Some? && tls.value.providerID.value in t.providers)
  {
    hide ValidHostname;
    hide IsAbsolutePath;
    hide ServerSettings.Valid;
    hide User.Valid;
    hide Share.Valid;
    hide SharePermission.Valid;
    hide ValidID;
  }

  /** Soundness and row validity, table by table. */
  ghost predicate GoodTables(t: Tables) {
    && SpelledChallenge(t.tls)
    && (forall k :: k in t.providers ==> t.providers[k].Valid() && t.providers[k].id == k)
    && GoodUsers(t) && GoodShares(t) && GoodPermissions(t)
    && (forall a, b :: a in t.users && b in t.users && t.users[a].id == t.users[b].id ==> a == b)
    && (forall a, b :: a in t.shares && b in t.shares && t.shares[a].id == t.shares[b].id ==> a == b)
    && t.settings.Valid()
    && (t.tls.Some? ==>
          && t.tls.value.Valid()
          && (t.tls.value.challenge.Dns? ==> t.tls.value.providerID.Some? && t.tls.value.providerID.value in t.providers))
  }

  lemma GoodTablesSound(t: Tables)
    ensures GoodTables(t) <==> Sound(t) && ValidRows(t)
  {
    hide Provider.Valid;
    hide User.Valid;
    hide Share.Valid;
    hide SharePermission.Valid;
    hide TLSProfile.Valid;
    hide ServerSettings.Valid;
    hide ShareWithID;
    hide UserWithID;
  }

  lemma ImportStaysGood(t: Tables, seed: ImportSeed, t': Tables)
    requires GoodTables(t) && ValidDocument(seed.document) && GoodSeed(t, seed)
    requires Importable(t, seed) && Overlaid(t, seed, t')
    ensures GoodTables(t')
  {
    hide Upserted;
    hide Insertable;
    hide PermissionsOverlaid;
    hide TLSOverlaid;
    hide ValidDocUser;
    hide ValidDocShare;
    hide ValidDocPermissions;
    hide Provider.Valid;
    hide SharePermission.Valid;
    hide TLSProfile.Valid;
    hide ServerSettings.Valid;
    hide ShareWithID;
    hide UserWithID;
    hide GoodUsers;
    hide GoodShares;
    ImportedUsersValid(t, seed, t');
    ImportedSharesValid(t, seed, t');
    GoodTablesSound(t);
    ImportedTables(t, seed, t'.users, t'.shares);
    RowsStay(t, seed, t');
    ImportedPermissionsValid(t, seed, t');
    ImportedTLSValid(t, seed, t'.tls);
    ImportedServerValid(t, seed, t');
  }

  /** An import keeps the tables sound and the state accepted by RuntimeConfigInput.Validate. */
  lemma ImportStaysValid(t: Tables, seed: ImportSeed, t': Tables)
    requires Sound(t) && Valid(Load(t)) && ValidDocument(seed.document) && GoodSeed(t, seed)
    requires Importable(t, seed) && Overlaid(t, seed, t')
    ensures Sound(t') && Valid(Load(t'))
  {
    hide Load;
    hide Sound;
    hide ValidRows;
    hide GoodTables;
    hide GoodSeed;
    hide Importable;
    LoadValid(t);
    GoodTablesSound(t);
    ImportStaysGood(t, seed, t');
    GoodTablesSound(t');
    LoadValid(t');
  }

  lemma ImportedServerValid(t: Tables, seed: ImportSeed, t': Tables)
    requires t.settings.Valid() && GoodSeed(t, seed)
    requires seed.document.server.Some? ==> PlaceholderSettings(seed.document.server.value).Valid()
    requires t'.settings == OverlaidServer(t.settings, seed.document.server, seed.timestamp)
    ensures t'.settings.Valid()
  {
  }
}
