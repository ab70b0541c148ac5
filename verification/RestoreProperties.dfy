/** Writing a stored state back into the tables. */
module RestoreProperties {
  import opened Ordering
  import opened Domain
  import opened Snapshot
  import opened Identity
  import opened CompilerSpec
  import opened ConfigIdentity
  import opened Tables
  import opened ImportProperties
  import opened Revisions
  import Registry

  // ----- what the insert loops build ------------------------------------------------------------

  lemma LastDistinct<T, K>(s: seq<T>, f: T -> K)
    requires Distinct(s, f) && |s| > 0
    ensures Distinct(s[..|s| - 1], f) && s == s[..|s| - 1] + [s[|s| - 1]]
    ensures forall x :: x in s[..|s| - 1] ==> f(x) != f(s[|s| - 1])
  {
  }

  lemma {:induction false} UserTableRows(us: seq<User>)
    requires Distinct(us, UserNormalized)
    ensures forall u :: u in us ==> u.normalized in UserTable(us) && UserTable(us)[u.normalized] == u
    ensures forall k :: k in UserTable(us) ==> UserTable(us)[k] in us && UserTable(us)[k].normalized == k
  {
    if |us| > 0 {
      LastDistinct(us, UserNormalized);
      UserTableRows(us[..|us| - 1]);
      assert forall u :: u in us[..|us| - 1] ==> UserNormalized(u) == u.normalized;
    }
  }

  lemma {:induction false} ShareTableRows(items: seq<ShareItem>)
    requires Distinct(items, ItemSlug)
    ensures forall item :: item in items ==>
                             item.share.slug in ShareTable(items) && ShareTable(items)[item.share.slug] == item.share
    ensures forall k :: k in ShareTable(items) ==> exists item :: item in items && item.share == ShareTable(items)[k] && item.share.slug == k
  {
    if |items| > 0 {
      var n := |items| - 1;
      LastDistinct(items, ItemSlug);
      ShareTableRows(items[..n]);
      assert forall item :: item in items[..n] ==> ItemSlug(item) == item.share.slug;
      forall k | k in ShareTable(items)
        ensures exists item :: item in items && item.share == ShareTable(items)[k] && item.share.slug == k
      {
        if k == items[n].share.slug {
          assert items[n] in items;
        } else {
          var item :| item in items[..n] && item.share == ShareTable(items[..n])[k] && item.share.slug == k;
          assert item in items;
        }
      }
    }
  }

  function RowKey(p: SharePermission): (ID, ID) { (p.shareID, p.userID) }

  lemma {:induction false} PermissionRowsBuilt(old': map<(ID, ID), SharePermission>, ps: seq<SharePermission>)
    requires Distinct(ps, RowKey)
    ensures var m := PermissionRowsOf(old', ps);
            && (forall p :: p in ps ==> RowKey(p) in m && m[RowKey(p)] == p)
            && (forall k :: k in m ==> (m[k] in ps && RowKey(m[k]) == k) || (k in old' && m[k] == old'[k]))
            && (forall k :: k in old' && (forall p :: p in ps ==> RowKey(p) != k) ==> k in m && m[k] == old'[k])
  {
    if |ps| > 0 {
      LastDistinct(ps, RowKey);
      PermissionRowsBuilt(old', ps[..|ps| - 1]);
    }
  }

  ghost predicate EveryPermission(m: map<(ID, ID), SharePermission>, items: seq<ShareItem>) {
    forall item, p :: item in items && p in item.permissions ==> RowKey(p) in m && m[RowKey(p)] == p
  }

  ghost predicate OnlyPermissions(m: map<(ID, ID), SharePermission>, items: seq<ShareItem>) {
    forall k :: k in m ==> exists item :: item in items && m[k] in item.permissions && RowKey(m[k]) == k
  }

  ghost predicate OwnPermissions(item: ShareItem) {
    (forall p :: p in item.permissions ==> p.shareID == item.share.id) && Distinct(item.permissions, RowKey)
  }

  lemma StepKeepsEvery(m: map<(ID, ID), SharePermission>, items: seq<ShareItem>, n: nat)
    requires n < |items| && Distinct(items, ItemID) && EveryPermission(m, items[..n])
    requires forall item :: item in items ==> OwnPermissions(item)
    ensures EveryPermission(PermissionRowsOf(m, items[n].permissions), items[..n + 1])
  {
    var ps := items[n].permissions;
    assert items[n] in items && items[..n + 1] == items[..n] + [items[n]];
    PermissionRowsBuilt(m, ps);
    forall item, p | item in items[..n + 1] && p in item.permissions
      ensures var rows := PermissionRowsOf(m, ps); RowKey(p) in rows && rows[RowKey(p)] == p
    {
      if item in items[..n] {
        var i :| 0 <= i < n && items[i] == item;
        assert ItemID(items[i]) != ItemID(items[n]) && item in items;
        assert forall q :: q in ps ==> RowKey(q) != RowKey(p);
      }
    }
  }

  lemma StepKeepsOnly(m: map<(ID, ID), SharePermission>, items: seq<ShareItem>, n: nat)
    requires n < |items| && OnlyPermissions(m, items[..n]) && OwnPermissions(items[n])
    ensures OnlyPermissions(PermissionRowsOf(m, items[n].permissions), items[..n + 1])
  {
    var ps := items[n].permissions;
    assert items[..n + 1] == items[..n] + [items[n]];
    PermissionRowsBuilt(m, ps);
    var rows := PermissionRowsOf(m, ps);
    hide PermissionRowsOf;
    forall k | k in rows ensures exists item :: item in items[..n + 1] && rows[k] in item.permissions && RowKey(rows[k]) == k {
      if rows[k] in ps && RowKey(rows[k]) == k {
        assert items[n] in items[..n + 1];
      } else {
        var item :| item in items[..n] && m[k] in item.permissions && RowKey(m[k]) == k;
        assert item in items[..n + 1];
      }
    }
  }

  /** The permission rows of a list of shares, each under its key, and no others. */
  lemma {:induction false} PermissionTableRows(items: seq<ShareItem>)
    requires Distinct(items, ItemID) && forall item :: item in items ==> OwnPermissions(item)
    ensures EveryPermission(PermissionTable(items), items) && OnlyPermissions(PermissionTable(items), items)
  {
    if |items| > 0 {
      hide OwnPermissions;
      var n := |items| - 1;
      LastDistinct(items, ItemID);
      hide Distinct;
      PermissionTableRows(items[..n]);
      hide EveryPermission;
      hide OnlyPermissions;
      assert items[n] in items;
      StepKeepsEvery(PermissionTable(items[..n]), items, n);
      StepKeepsOnly(PermissionTable(items[..n]), items, n);
      assert items[..n + 1] == items;
    }
  }

  /** The rows after the loop over ps. */
  ghost predicate ProviderRowsBuilt(old': map<ID, Provider>, ps: seq<Provider>, m: map<ID, Provider>) {
    && (forall p :: p in ps ==> p.id in m && m[p.id] == ProviderRow(old', p))
    && (forall k :: k in m ==> (exists p :: p in ps && p.id == k) || (k in old' && m[k] == old'[k]))
    && (forall k :: k in old' ==> k in m && ((forall p :: p in ps ==> p.id != k) ==> m[k] == old'[k]))
  }

  lemma ProviderRowAdded(old': map<ID, Provider>, ps: seq<Provider>, m: map<ID, Provider>, last: Provider)
    requires ProviderRowsBuilt(old', ps, m) && forall p :: p in ps ==> p.id != last.id
    ensures ProviderRowsBuilt(old', ps + [last], m[last.id := ProviderRow(m, last)])
  {
    var after := m[last.id := ProviderRow(m, last)];
    assert last in ps + [last] && ProviderRow(m, last) == ProviderRow(old', last);
    forall k | k in after ensures (exists p :: p in ps + [last] && p.id == k) || (k in old' && after[k] == old'[k]) {
      if k != last.id && exists p :: p in ps && p.id == k {
        var p :| p in ps && p.id == k;
        assert p in ps + [last];
      }
    }
  }

  lemma {:induction false} ProviderTableRows(old': map<ID, Provider>, ps: seq<Provider>)
    requires Distinct(ps, ProviderID)
    ensures ProviderRowsBuilt(old', ps, ProviderTable(old', ps))
  {
    if |ps| > 0 {
      hide ProviderRowsBuilt;
      var n := |ps| - 1;
      LastDistinct(ps, ProviderID);
      assert forall p :: p in ps[..n] ==> ProviderID(p) == p.id;
      ProviderTableRows(old', ps[..n]);
      ProviderRowAdded(old', ps[..n], ProviderTable(old', ps[..n]), ps[n]);
    }
  }

  // ----- the restored tables are good tables -----------------------------------------------------------

  /** An identifier stands for one provider for good: equal identifiers, equal creation times. */
  ghost predicate SameBirths(t: Tables, x: State) {
    forall p :: p in x.providers && p.id in t.providers ==> t.providers[p.id].createdAt == p.createdAt
  }

  lemma RestoredProviders(t: Tables, x: State)
    requires ValidProviders(x.providers) && SameBirths(t, x)
    ensures var m := RestoredTables(t, x).providers;
            && (forall p :: p in x.providers ==> p.id in m && m[p.id] == p)
            && (forall k :: k in m ==> (exists p :: p in x.providers && p.id == k) || (k in t.providers && m[k] == t.providers[k]))
            && (forall k :: k in t.providers ==> k in m)
            && (forall k :: k in t.providers && (forall p :: p in x.providers ==> p.id != k) ==> m[k] == t.providers[k])
  {
    hide Provider.Valid;
    ProviderTableRows(t.providers, x.providers);
    forall p | p in x.providers ensures ProviderRow(t.providers, p) == p { }
  }

  lemma OwnedPermissions(x: State)
    requires ValidAccess(x.shares, x.users)
    ensures forall item :: item in x.shares ==> OwnPermissions(item)
  {
  }

  lemma RestoredUsersGood(t: Tables, x: State)
    requires ValidUsers(x.users)
    ensures var t' := RestoredTables(t, x);
            && GoodUsers(t')
            && (forall a, b :: a in t'.users && b in t'.users && t'.users[a].id == t'.users[b].id ==> a == b)
            && (forall u :: u in x.users ==> u.normalized in t'.users && t'.users[u.normalized] == u)
            && (forall k :: k in t'.users ==> t'.users[k] in x.users)
  {
    hide User.Valid;
    UserTableRows(x.users);
    var m := UserTable(x.users);
    forall a, b | a in m && b in m && m[a].id == m[b].id ensures a == b {
      var i :| 0 <= i < |x.users| && x.users[i] == m[a];
      var j :| 0 <= j < |x.users| && x.users[j] == m[b];
      assert UserID(x.users[i]) == UserID(x.users[j]);
    }
  }

  lemma RestoredSharesGood(t: Tables, x: State)
    requires ValidShares(x.shares)
    ensures var t' := RestoredTables(t, x);
            && GoodShares(t')
            && (forall a, b :: a in t'.shares && b in t'.shares && t'.shares[a].id == t'.shares[b].id ==> a == b)
            && (forall item :: item in x.shares ==> item.share.slug in t'.shares && t'.shares[item.share.slug] == item.share)
            && (forall k :: k in t'.shares ==> exists item :: item in x.shares && item.share == t'.shares[k])
  {
    hide Share.Valid;
    hide Distinct;
    hide ShareTable;
    ShareTableRows(x.shares);
    var m := ShareTable(x.shares);
    forall a, b | a in m && b in m && m[a].id == m[b].id ensures a == b {
      var v :| v in x.shares && v.share == m[a] && v.share.slug == a;
      var w :| w in x.shares && w.share == m[b] && w.share.slug == b;
      SameShareID(x.shares, v, w);
    }
  }

  lemma SameShareID(items: seq<ShareItem>, v: ShareItem, w: ShareItem)
    requires Distinct(items, ItemID) && v in items && w in items && v.share.id == w.share.id
    ensures v == w
  {
  }

  lemma RestoredPermission(t: Tables, x: State, k: (ID, ID))
    requires Valid(x) && k in RestoredTables(t, x).permissions
    ensures GoodPermission(RestoredTables(t, x), k, RestoredTables(t, x).permissions[k])
  {
    hide SharePermission.Valid;
    hide User.Valid;
    hide Share.Valid;
    hide Distinct;
    hide UserTable;
    hide ShareTable;
    hide PermissionTable;
    hide ProviderTable;
    OwnedPermissions(x);
    PermissionTableRows(x.shares);
    var t' := RestoredTables(t, x);
    var item :| item in x.shares && t'.permissions[k] in item.permissions && RowKey(t'.permissions[k]) == k;
    assert ValidPermissions(item, x.users);
    RestoredSharesGood(t, x);
    RestoredUsersGood(t, x);
    var u :| u in x.users && u.id == k.1;
    assert u.normalized in t'.users && item.share.slug in t'.shares;
  }

  lemma RestoredProvidersGood(t: Tables, x: State)
    requires ValidProviders(x.providers) && SameBirths(t, x)
    requires forall k :: k in t.providers ==> t.providers[k].Valid() && t.providers[k].id == k
    ensures var m := RestoredTables(t, x).providers;
            (forall k :: k in m ==> m[k].Valid() && m[k].id == k) && (forall p :: p in x.providers ==> p.id in m)
  {
    hide Provider.Valid;
    RestoredProviders(t, x);
    hide RestoredTables;
  }

  lemma RestoredGood(t: Tables, x: State)
    requires Valid(x) && Sound(t) && ValidRows(t) && SameBirths(t, x)
    ensures Sound(RestoredTables(t, x)) && ValidRows(RestoredTables(t, x))
  {
    hide User.Valid;
    hide Share.Valid;
    hide Provider.Valid;
    hide TLSProfile.Valid;
    hide ServerSettings.Valid;
    hide GoodUsers;
    hide GoodShares;
    hide GoodPermission;
    hide ValidUsers;
    hide ValidShares;
    hide ValidAccess;
    hide ValidProviders;
    hide ValidTLS;
    hide SameBirths;
    hide Sound;
    hide ValidRows;
    var t' := RestoredTables(t, x);
    GoodTablesSound(t);
    RestoredProvidersGood(t, x);
    RestoredUsersGood(t, x);
    RestoredSharesGood(t, x);
    forall k | k in t'.permissions ensures GoodPermission(t', k, t'.permissions[k]) { RestoredPermission(t, x, k); }
    RestoredProfile(x.tls, x.providers, t'.providers);
    GoodTablesSound(t');
  }

  lemma RestoredProfile(tls: Option<TLSProfile>, ps: seq<Provider>, rows: map<ID, Provider>)
    requires ValidTLS(tls, ps) && forall p :: p in ps ==> p.id in rows
    ensures SpelledChallenge(SpelledOut(tls))
    ensures var tls' := SpelledOut(tls);
            tls'.Some? ==>
              && tls'.value.Valid()
              && (tls'.value.challenge.Dns? ==> tls'.value.providerID.Some? && tls'.value.providerID.value in rows)
  {
  }

  /** A stored provider that the state does not name. */
  ghost predicate LeftBehind(t: Tables, x: State, k: ID) { k in t.providers && !KnownProvider(x.providers, k) }

  // ----- the restored tables say what the state says --------------------------------------------------------

  lemma RestoredGrants(t: Tables, x: State, item: ShareItem)
    requires Distinct(x.shares, ItemID) && item in x.shares
    requires forall other :: other in x.shares ==> OwnPermissions(other)
    ensures ShareFactsOf(RestoredTables(t, x), item.share) == FactsOfItem(item)
  {
    PermissionTableRows(x.shares);
    var m := PermissionTable(x.shares);
    hide PermissionTable;
    var a, b := ShareFactsOf(RestoredTables(t, x), item.share).grants, FactsOfItem(item).grants;
    forall g | g in a ensures g in b {
      var k :| k in m && k.0 == item.share.id && IsGrant(m[k]) && GrantCoreOf(m[k]) == g;
      var other :| other in x.shares && m[k] in other.permissions && RowKey(m[k]) == k;
      assert OwnPermissions(other);
      SameShareID(x.shares, item, other);
    }
    forall g | g in b ensures g in a {
      var p :| p in item.permissions && IsGrant(p) && GrantCoreOf(p) == g;
      assert RowKey(p) in m && m[RowKey(p)] == p && RowKey(p).0 == item.share.id;
    }
  }

  lemma RestoredShareFacts(t: Tables, x: State)
    requires Valid(x)
    ensures TableFacts(RestoredTables(t, x)).shares == Image(FactsOfItem, x.shares)
  {
    hide Share.Valid;
    hide FactsOfItem;
    hide ShareFactsOf;
    hide ValidUsers;
    hide ValidProviders;
    hide ValidTLS;
    hide ValidAccess;
    OwnedPermissions(x);
    RestoredSharesGood(t, x);
    var t' := RestoredTables(t, x);
    forall item | item in x.shares ensures ShareFactsOf(t', item.share) == FactsOfItem(item) { RestoredGrants(t, x, item); }
    forall f | f in Image(FactsOfItem, x.shares) ensures f in TableFacts(t').shares {
      var item :| item in x.shares && FactsOfItem(item) == f;
      assert item.share.slug in t'.shares;
    }
  }

  lemma RestoredProviderFacts(t: Tables, x: State)
    requires ValidProviders(x.providers) && SameBirths(t, x) && Sound(t)
    ensures var facts := TableFacts(RestoredTables(t, x)).providers;
            && Image(FactsOfProvider, x.providers) <= facts
            && (facts == Image(FactsOfProvider, x.providers) <==> forall k :: !LeftBehind(t, x, k))
  {
    hide Provider.Valid;
    RestoredProviders(t, x);
    var m := RestoredTables(t, x).providers;
    hide RestoredTables;
    forall k | k in m && !KnownProvider(x.providers, k) ensures FactsOfProvider(m[k]) !in Image(FactsOfProvider, x.providers) {
      assert m[k].id == k;
    }
    forall k | LeftBehind(t, x, k) ensures k in m { }
    if forall k :: !LeftBehind(t, x, k) {
      forall k | k in m ensures FactsOfProvider(m[k]) in Image(FactsOfProvider, x.providers) {
        assert !LeftBehind(t, x, k);
        var p :| p in x.providers && p.id == k;
        assert m[k] == p;
      }
    }
  }

  /** The tables restored from a state say what the state says, except for providers the state does not name. */
  lemma RestoredSays(t: Tables, x: State)
    requires Valid(x) && Sound(t) && ValidRows(t) && SameBirths(t, x)
    ensures var t' := RestoredTables(t, x);
            && SaysTheSame(x, Load(t'))
            && (Facts(Load(t')) == Facts(x) <==> forall k :: !LeftBehind(t, x, k))
  {
    hide User.Valid;
    hide TLSProfile.Valid;
    hide ServerSettings.Valid;
    hide ValidShares;
    hide ValidAccess;
    hide ValidRows;
    hide Sound;
    var t' := RestoredTables(t, x);
    RestoredProviderFacts(t, x);
    RestoredUsersGood(t, x);
    RestoredShareFacts(t, x);
    LoadFacts(t');
    forall u | u in x.users ensures UserCoreOf(u) in TableFacts(t').users {
      assert u.normalized in t'.users && t'.users[u.normalized] == u;
    }
    hide UserTable;
    hide ShareTable;
    hide ProviderTable;
    hide PermissionTable;
    hide Load;
    assert TableFacts(t').users == Image(UserCoreOf, x.users);
  }

  lemma AdapterOfRow(t: Tables, id: ID)
    requires Sound(t) && ValidRows(t) && id in t.providers
    ensures KnownProvider(Load(t).providers, id) && Registry.For(KindOf(Load(t).providers, id)).Some?
  {
    LoadRows(t);
    LoadKnown(t);
    var p :| p in Load(t).providers && p.id == id && p.kind == KindOf(Load(t).providers, id);
    AdapterExists(p);
  }

  /** Good tables always compile, even when two providers share a name. */
  lemma RowsCompile(t: Tables)
    requires Sound(t) && ValidRows(t)
    ensures Compilable(Load(t))
  {
    hide User.Valid;
    hide Share.Valid;
    hide SharePermission.Valid;
    hide Provider.Valid;
    hide TLSProfile.Valid;
    hide ServerSettings.Valid;
    hide ValidUsers;
    hide ValidShares;
    hide ValidPermissions;
    LoadRows(t);
    LoadDistinct(t);
    UserRows(t);
    ShareRows(t);
    AccessRows(t);
    if NeededProvider(t.tls).Some? { AdapterOfRow(t, NeededProvider(t.tls).value); }
  }

  /** Restoring brings the configuration back exactly, whatever extra providers stay behind. */
  lemma RestoreRecompiles(t: Tables, x: State)
    requires Valid(x) && Sound(t) && ValidRows(t) && SameBirths(t, x)
    ensures var t' := RestoredTables(t, x);
            Sound(t') && ValidRows(t') && Compilable(x) && Compilable(Load(t')) && Compiled(Load(t')) == Compiled(x)
  {
    hide Valid;
    hide Sound;
    hide ValidRows;
    hide Load;
    hide Compilable;
    hide Compiled;
    RestoredGood(t, x);
    RestoredSays(t, x);
    RowsCompile(RestoredTables(t, x));
    ValidIffCompilable(x);
    SameFactsSameConfig(x, Load(RestoredTables(t, x)));
  }

  /** No provider left behind carries the name of a restored one, or of another left behind. */
  ghost predicate NamesFree(t: Tables, x: State) {
    && (forall k, p :: LeftBehind(t, x, k) && p in x.providers ==> t.providers[k].name != p.name)
    && (forall j, k :: LeftBehind(t, x, j) && LeftBehind(t, x, k) && t.providers[j].name == t.providers[k].name ==> j == k)
  }

  lemma UniqueNamesFree(t: Tables, x: State)
    requires ValidProviders(x.providers) && SameBirths(t, x) && UniqueProviderNames(RestoredTables(t, x))
    ensures NamesFree(t, x)
  {
    hide Provider.Valid;
    RestoredProviders(t, x);
    var m := RestoredTables(t, x).providers;
    assert forall a, b :: a in m && b in m && m[a].name == m[b].name ==> a == b;
    hide RestoredTables;
    forall k, p | LeftBehind(t, x, k) && p in x.providers ensures t.providers[k].name != p.name {
      assert k in m && m[k] == t.providers[k] && p.id in m;
    }
    forall j, k | LeftBehind(t, x, j) && LeftBehind(t, x, k) && t.providers[j].name == t.providers[k].name ensures j == k {
      assert j in m && m[j] == t.providers[j] && k in m && m[k] == t.providers[k];
    }
  }

  lemma SameNameSameProvider(x: State, p: Provider, q: Provider)
    requires ValidProviders(x.providers) && p in x.providers && q in x.providers && p.name == q.name
    ensures p == q
  {
  }

  /** The restored row under k is one of the state's, or one left behind. */
  lemma RestoredRow(t: Tables, x: State, k: ID)
    requires ValidProviders(x.providers) && SameBirths(t, x) && k in RestoredTables(t, x).providers
    ensures var row := RestoredTables(t, x).providers[k];
            (row in x.providers && row.id == k) || (LeftBehind(t, x, k) && row == t.providers[k])
  {
    hide Provider.Valid;
    RestoredProviders(t, x);
  }

  lemma FreeNamesUnique(t: Tables, x: State)
    requires ValidProviders(x.providers) && Sound(t) && SameBirths(t, x) && NamesFree(t, x)
    ensures UniqueProviderNames(RestoredTables(t, x))
  {
    hide ValidProviders;
    hide LeftBehind;
    hide SameBirths;
    hide Sound;
    var m := RestoredTables(t, x).providers;
    hide RestoredTables;
    forall a, b | a in m && b in m && m[a].name == m[b].name ensures a == b {
      RestoredRow(t, x, a);
      RestoredRow(t, x, b);
      if m[a] in x.providers && m[b] in x.providers { SameNameSameProvider(x, m[a], m[b]); }
    }
  }

  /** The restored state is accepted by Validate, and so can be applied again, exactly when the names are free. */
  lemma RestoreValid(t: Tables, x: State)
    requires Valid(x) && Sound(t) && ValidRows(t) && SameBirths(t, x)
    ensures Valid(Load(RestoredTables(t, x))) <==> NamesFree(t, x)
  {
    hide Sound;
    hide ValidRows;
    hide Load;
    hide UniqueProviderNames;
    hide NamesFree;
    hide RestoredTables;
    hide ValidTLS;
    hide ValidUsers;
    hide ValidShares;
    hide ValidAccess;
    RestoredGood(t, x);
    LoadValid(RestoredTables(t, x));
    if UniqueProviderNames(RestoredTables(t, x)) { UniqueNamesFree(t, x); }
    if NamesFree(t, x) { FreeNamesUnique(t, x); }
  }

  /** Restoring also brings the identity back exactly when no other provider is stored. */
  lemma RestoreIdentity(t: Tables, x: State)
    requires Valid(x) && Sound(t) && ValidRows(t) && SameBirths(t, x)
    ensures StateHashed(Load(RestoredTables(t, x))) == StateHashed(x) <==> forall k :: !LeftBehind(t, x, k)
  {
    var t' := RestoredTables(t, x);
    hide Valid;
    hide Sound;
    hide ValidRows;
    hide Load;
    hide RestoredTables;
    RestoreValid(t, x);
    RestoredSays(t, x);
    CanonicalValid(x);
    CanonicalValid(Load(t'));
    if Valid(Load(t')) { IdentityExact(x, Load(t')); }
  }
}
