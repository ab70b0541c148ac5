/** Runs that reach the situations in which a promise of the service ends. */
module Witnesses {
  import opened Ordering
  import opened Domain
  import opened Snapshot
  import opened CaddyConfig
  import opened CaddyRuntime
  import opened RuntimeProperties
  import opened CompilerSpec
  import opened Tables
  import opened Database
  import opened Revisions
  import opened RestoreProperties
  import opened RevisionProperties
  import opened ApplySpec
  import opened ApplyProperties
  import opened RuntimeAgreement
  import opened AgreementLimits
  import opened DNSEnvironment
  import opened SecretLimits
  import opened ApplyLimits
  import opened CrashLimits
  import Acl
  import ApplyAgreement
  import ApplyRuns
  import ConfigFile
  import ConfigIdentity
  import Identity
  import Registry

  // ----- small databases ----------------------------------------------------------------------------

  function SampleID(c: char): ID { ConfigFile.PLACEHOLDER_ID[35 := c] }

  lemma SampleIDValid(c: char)
    requires IsHex(c)
    ensures ValidID(SampleID(c))
  {
    ConfigFile.PlaceholderValid();
  }

  /** Every provider was created at time 1. */
  function BornFirst(id: ID): Timestamp { 1 }

  function SampleSettings(base: string, port: int): ServerSettings {
    ServerSettings(SampleID('0'), base, port, 443, Portable, 1, 1)
  }

  function EmptyTables(port: int): Tables { Tables(SampleSettings("/", port), None, map[], map[], map[], map[]) }

  lemma SampleSettingsValid(port: int)
    requires ValidPort(port) && port != 443
    ensures SampleSettings("/", port).Valid()
  {
    SampleIDValid('0');
  }

  lemma EmptyTablesGood(port: int)
    requires ValidPort(port) && port != 443
    ensures GoodRows(EmptyTables(port), BornFirst) && Valid(Load(EmptyTables(port)))
  {
    hide Load;
    hide Valid;
    hide ServerSettings.Valid;
    SampleSettingsValid(port);
    LoadValid(EmptyTables(port));
  }

  lemma PortCompiled(t: Tables)
    requires Compilable(Load(t))
    ensures Compiled(Load(t)).json.httpPort == t.settings.httpPort
  {
    hide Compilable;
    hide AllRoutes;
    hide CompiledTLS;
    hide Policies;
    hide RedirectServer;
  }

  lemma PortsDiffer(t: Tables, t': Tables)
    requires t.settings.httpPort != t'.settings.httpPort
    ensures !ApplyRuns.SameConfig(t, t')
  {
    hide Compilable;
    hide Compiled;
    hide Load;
    if ApplyRuns.SameConfig(t, t') {
      PortCompiled(t);
      PortCompiled(t');
    }
  }

  // ----- an apply in which everything works ---------------------------------------------------------------

  const WELL_STARTED := StartOutcome(None, true, true, [Healthy])
  const WELL_STOPPED := StopOutcome(true, Exits(true))
  const WELL_RELOADED := ReloadOutcome(None, Accepted, true)
  const WELL_ACTIVATED := Activation(true, WELL_STOPPED, WELL_STARTED, WELL_STARTED, true, WELL_RELOADED)

  function WellApplied(id: ID): ApplyOracle {
    ApplyOracle(true, Success(map[]), None, true, Success(id), 1, true, 1, true, None, None,
                true, WELL_ACTIVATED, true, true, true, WELL_RELOADED, WELL_STOPPED)
  }

  function Fresh(t: Tables): World { World(Db(t, map[], None, None, true, 1), INITIAL) }

  lemma WellAppliedIsWell(c: char, before: Option<Tables>, after: Option<Tables>)
    requires IsHex(c)
    ensures AllWell(WellApplied(SampleID(c)).(before := before, after := after))
  {
    SampleIDValid(c);
  }

  // ----- a lost mutation ---------------------------------------------------------------------------------

  /** A change of the port that lands while the first apply activates: the apply succeeds, nothing is pending, and the
      active configuration is not that of the tables. */
  lemma LostBySuccess() returns (w: World, o: ApplyOracle)
    ensures Invariant(w.db, BornFirst) && UpToDate(w.db) && w == Fresh(w.db.tables) && GoodLanding(o.after, BornFirst)
    ensures var (after, r) := Apply(w, o);
            r.Success? && !Pending(after.db) && after.db.active.Some? && !HoldsFor(after.db, after.db.active.value)
  {
    hide Apply;
    hide Invariant;
    hide UpToDate;
    hide HoldsFor;
    hide Pending;
    hide Valid;
    hide GoodRows;
    hide AllWell;
    hide ApplyWorks;
    hide Records;
    hide ApplyRuns.ActiveIsCurrent;
    hide ApplyRuns.SameConfig;
    w := Fresh(EmptyTables(80));
    o := WellApplied(SampleID('1')).(after := Some(EmptyTables(81)));
    EmptyTablesGood(80);
    EmptyTablesGood(81);
    Initial(EmptyTables(80), BornFirst);
    WellAppliedIsWell('1', None, o.after);
    FirstApply(EmptyTables(80), o, BornFirst);
    PortsDiffer(EmptyTables(80), EmptyTables(81));
    ApplySucceedsExactly(w, o);
    ApplyRuns.LostMutation(w, o, BornFirst);
  }

  lemma SuccessMarks(w: World, o: ApplyOracle)
    requires Apply(w, o).1.Success?
    ensures o.marks
  {
    hide Valid;
    hide Compilable;
    hide Compiled;
    hide Load;
    hide Record;
    hide Checked;
    hide EnvironmentChanged;
    hide MadeActive;
  }

  /** The stored revision of the current state is found again. */
  lemma FoundAgain(db: Db, id: ID, x: State, o: ApplyOracle, born: Births)
    requires Invariant(db, born) && db.revisions.Keys == {id} && Valid(x) && Compilable(x)
    requires db.revisions[id].configHash == Compiled(x).sha256 && db.revisions[id].stateHash == Identity.Sha256(Identity.IdentityOf(x))
    requires o.finds && o.activeReads && o.stamp != 0 && o.records
    ensures Record(db, x, o) == Recorded(db.(desired := Some(id), dirty := false), id, false)
  {
    hide Valid;
    hide Compilable;
    hide Compiled;
    hide Identity.IdentityOf;
    hide Matching;
    hide GoodRows;
    hide Sane;
    SaneMatching(db.revisions[id], born) by { assert Sane(db.revisions[id], born); }
    NewestExists(db, id, Compiled(x).sha256, Identity.Sha256(Identity.IdentityOf(x)));
  }

  /** The same when marking fails: after a first apply, a change of the port lands while the unchanged state is applied
      again.  The apply fails, but recording the active revision has cleared the flag. */
  lemma LostByFailure() returns (first: ApplyOracle, o: ApplyOracle, w: World)
    ensures w == Apply(Fresh(EmptyTables(80)), first).0 && Invariant(w.db, BornFirst) && UpToDate(w.db)
    ensures GoodLanding(o.before, BornFirst) && o.after.None?
    ensures var (after, r) := Apply(w, o);
            r.Failure? && !Pending(after.db) && after.db.active.Some? && !HoldsFor(after.db, after.db.active.value)
  {
    hide Apply;
    hide Invariant;
    hide UpToDate;
    hide HoldsFor;
    hide Pending;
    hide Valid;
    hide Load;
    hide Compilable;
    hide Compiled;
    hide GoodRows;
    hide AllWell;
    hide Keeps;
    hide Follows;
    hide Grown;
    hide Record;
    hide Identity.IdentityOf;
    var t, t2 := EmptyTables(80), EmptyTables(81);
    first := WellApplied(SampleID('1'));
    o := first.(before := Some(t2), marks := false);
    EmptyTablesGood(80);
    EmptyTablesGood(81);
    Initial(t, BornFirst);
    WellAppliedIsWell('1', None, None);
    FirstApply(t, first, BornFirst);
    ApplyKeeps(Fresh(t), first, BornFirst);
    w := Apply(Fresh(t), first).0;
    LandedKeeps(w.db, o.before, BornFirst);
    FoundAgain(Landed(w.db, o.before), SampleID('1'), Load(t), o, BornFirst);
    PortsDiffer(t, t2);
    if Apply(w, o).1.Success? { SuccessMarks(w, o); }
    ApplyRuns.LostMutation(w, o, BornFirst);
  }

  // ----- a provider left behind that clashes ---------------------------------------------------------------

  function SampleProvider(c: char): Provider { Provider(SampleID(c), "dns", Cloudflare, [], 1, 1) }

  function ProviderTables(c: char): Tables { EmptyTables(80).(providers := map[SampleID(c) := SampleProvider(c)]) }

  lemma ProviderTablesGood(c: char)
    requires IsHex(c)
    ensures GoodRows(ProviderTables(c), BornFirst) && Valid(Load(ProviderTables(c)))
  {
    hide Load;
    hide Valid;
    hide ServerSettings.Valid;
    SampleSettingsValid(80);
    SampleIDValid(c);
    hide SampleID;
    hide ValidID;
    assert "dns" == TrimSpace("dns") && ByteLength("dns") == 3;
    LoadValid(ProviderTables(c));
  }

  lemma ProviderFactsOf(c: char)
    ensures Identity.Facts(Load(ProviderTables(c))).providers == {Identity.FactsOfProvider(SampleProvider(c))}
  {
    hide Load;
    hide SampleID;
    LoadFacts(ProviderTables(c));
    var t := ProviderTables(c);
    assert t.providers.Keys == {SampleID(c)};
  }

  /** A stored revision has the facts of the state it was made from. */
  lemma StoredFacts(db: Db, id: ID, x: State, born: Births)
    requires Invariant(db, born) && id in db.revisions && Valid(x)
    requires db.revisions[id].stateHash == Identity.Sha256(Identity.IdentityOf(x))
    ensures Parsed(db.revisions[id].body).Success? && Identity.Facts(Parsed(db.revisions[id].body).value) == Identity.Facts(x)
  {
    hide Valid;
    hide GoodRows;
    hide Compilable;
    hide Identity.IdentityOf;
    hide Identity.Facts;
    hide Canonical;
    VerifiedAgain(db, id, born);
    assert Sane(db.revisions[id], born);
    var y := Parsed(db.revisions[id].body).value;
    CanonicalValid(x);
    CanonicalValid(y);
    Identity.IdentityExact(x, y);
  }

  lemma ClashingNames(y: State)
    requires Identity.Facts(y).providers == {Identity.FactsOfProvider(SampleProvider('a'))}
    ensures !NamesFree(ProviderTables('b'), y)
  {
    var t, k := ProviderTables('b'), SampleID('b');
    assert SampleID('a')[35] == 'a' && SampleID('b')[35] == 'b';
    hide SampleID;
    assert Identity.FactsOfProvider(SampleProvider('a')) in Image(Identity.FactsOfProvider, y.providers);
    var p :| p in y.providers && Identity.FactsOfProvider(p) == Identity.FactsOfProvider(SampleProvider('a'));
    forall q | q in y.providers ensures q.id != k {
      assert Identity.FactsOfProvider(q) in Image(Identity.FactsOfProvider, y.providers);
    }
    assert LeftBehind(t, y, k) && t.providers[k].name == p.name;
  }

  const WELL_RESTORED := RestoreOracle(true, Success(map[]), None, true, WELL_ACTIVATED, true, 1, None, true,
                                       true, WELL_STOPPED, WELL_STARTED, WELL_RELOADED)

  lemma ReloadsWell(rt: Runtime, config: Config, previous: Option<Config>, was: Environment)
    requires Running(rt)
    ensures Checked(rt, config, map[], false, previous, was, WELL_ACTIVATED, true).1.None?
  {
  }

  /** A provider is applied, deleted, created again under the same name, and the first revision restored: the restore
      succeeds, and no apply succeeds afterwards. */
  lemma ClashReached() returns (actions: seq<ApplyRuns.Action>, w: World, id: ID)
    ensures forall i :: 0 <= i < |actions| ==> ApplyRuns.Admissible(actions[i], BornFirst)
    ensures w == ApplyRuns.Run(Fresh(ProviderTables('a')), actions) && Invariant(w.db, BornFirst)
    ensures Restore(w, id, WELL_RESTORED).1.Success?
    ensures forall a :: Apply(Restore(w, id, WELL_RESTORED).0, a).1.Failure?
  {
    hide Apply;
    hide Restore;
    hide Invariant;
    hide UpToDate;
    hide HoldsFor;
    hide Pending;
    hide Valid;
    hide Load;
    hide Compilable;
    hide Compiled;
    hide GoodRows;
    hide AllWell;
    hide Keeps;
    hide Follows;
    hide Grown;
    hide Identity.IdentityOf;
    hide Identity.Facts;
    hide NamesFree;
    hide Checked;
    var t, o := ProviderTables('a'), WellApplied(SampleID('1'));
    id := SampleID('1');
    actions := [ApplyRuns.ApplyAction(o), ApplyRuns.Mutation(EmptyTables(80)), ApplyRuns.Mutation(ProviderTables('b'))];
    ProviderTablesGood('a');
    ProviderTablesGood('b');
    EmptyTablesGood(80);
    Initial(t, BornFirst);
    WellAppliedIsWell('1', None, None);
    FirstApply(t, o, BornFirst);
    ApplyKeeps(Fresh(t), o, BornFirst);
    ThreeSteps(Fresh(t), actions[0], actions[1], actions[2]);
    var w1 := Apply(Fresh(t), o).0;
    w := w1.(db := Mutated(Mutated(w1.db, EmptyTables(80)), ProviderTables('b')));
    MutatedKeeps(w1.db, EmptyTables(80), BornFirst);
    MutatedKeeps(Mutated(w1.db, EmptyTables(80)), ProviderTables('b'), BornFirst);
    StoredFacts(w.db, id, Load(t), BornFirst);
    ProviderFactsOf('a');
    ClashingNames(Parsed(w.db.revisions[id].body).value);
    ReloadsWell(w.rt, w.db.revisions[id].json, OptionalConfig(ActiveRevision(w.db)), w.rt.environment);
    RestoreSucceedsExactly(w, id, WELL_RESTORED, BornFirst);
    forall a ensures Apply(Restore(w, id, WELL_RESTORED).0, a).1.Failure? { ClashBlocksApply(w, id, WELL_RESTORED, a, BornFirst); }
  }

  // ----- a base path that ends in a star --------------------------------------------------------------------

  function SampleUser(): User { User(SampleID('2'), "u", "u", "h", true, 1, 1) }

  function SampleShare(): Share { Share(SampleID('3'), "s", "s", "/s", true, 1, 1) }

  function SampleGrant(): SharePermission { SharePermission(SampleID('3'), SampleID('2'), Read, 1, 1) }

  function StarTables(): Tables {
    Tables(SampleSettings("/d*", 80), None, map[], map["u" := SampleUser()], map["s" := SampleShare()],
           map[(SampleID('3'), SampleID('2')) := SampleGrant()])
  }

  lemma StarSettingsValid()
    ensures SampleSettings("/d*", 80).Valid()
  {
    SampleIDValid('0');
    hide SampleID;
    hide ValidID;
    assert CleanSegments("/d*");
  }

  lemma SampleUserValid()
    ensures SampleUser().Valid()
  {
    SampleIDValid('2');
    hide SampleID;
    hide ValidID;
    assert TrimSpace("u") == "u" && TrimSpace("h") == "h" && ToLower("u") == "u";
  }

  lemma SampleShareValid()
    ensures SampleShare().Valid()
  {
    SampleIDValid('3');
    hide SampleID;
    hide ValidID;
    assert TrimSpace("s") == "s" && CleanSegments("/s");
  }

  lemma SampleGrantValid()
    ensures SampleGrant().Valid()
  {
    SampleIDValid('2');
    SampleIDValid('3');
  }

  lemma StarTablesSound()
    ensures Sound(StarTables())
  {
    hide SampleID;
    var t := StarTables();
    assert t.users["u"].id == SampleID('2') && t.shares["s"].id == SampleID('3');
    assert UserWithID(t, SampleID('2')) && ShareWithID(t, SampleID('3'));
  }

  lemma StarTablesGood()
    ensures GoodRows(StarTables(), BornFirst) && Valid(Load(StarTables()))
  {
    hide Load;
    hide Valid;
    hide Sound;
    hide ServerSettings.Valid;
    hide User.Valid;
    hide Share.Valid;
    hide SharePermission.Valid;
    hide SampleID;
    StarSettingsValid();
    SampleUserValid();
    SampleShareValid();
    SampleGrantValid();
    hide SampleSettings;
    hide SampleUser;
    hide SampleShare;
    hide SampleGrant;
    StarTablesSound();
    LoadValid(StarTables());
  }

  lemma StarReader()
    ensures EndsWithStar(Load(StarTables()).settings.publicBasePath)
    ensures AccountOf(SampleUser()) in DiscoverySet(Load(StarTables()).users, Load(StarTables()).shares)
  {
    hide SampleID;
    var t := StarTables();
    LoadRows(t);
    PermissionRows(t, SampleID('3'));
    assert t.users["u"] in Load(t).users && ItemOf(t, t.shares["s"]) in Load(t).shares;
    assert t.permissions[(SampleID('3'), SampleID('2'))] in Rows(PermissionsOf(t, SampleID('3')));
    hide Load;
    hide Rows;
    var item := ItemOf(t, t.shares["s"]);
    assert SampleGrant() in item.permissions && Grants(SampleUser(), SampleGrant(), false);
    assert AccountOf(SampleUser()) in GrantSet(Load(t).users, item.permissions, false);
  }

  /** Tables that the program accepts and whose compiled routes hide a share from a client who may read it. */
  lemma ShadowReached() returns (t: Tables, r: Request, item: ShareItem, a: Account)
    ensures GoodRows(t, BornFirst) && Valid(Load(t)) && Compilable(Load(t))
    ensures Acl.HostManaged(Load(t), r.host) && Acl.AclServes(Load(t), r, item.share.path, Acl.SharePrefix(Load(t), item), a)
    ensures !Serve(Compiled(Load(t)).json.davdeck.routes, r).ServedShare?
  {
    hide Load;
    hide Valid;
    hide Compilable;
    hide Compiled;
    hide GoodRows;
    hide DiscoverySet;
    t := StarTables();
    StarTablesGood();
    StarReader();
    ConfigIdentity.ValidIffCompilable(Load(t));
    r, item, a := Acl.ShadowedShare(Load(t));
  }

  // ----- a process off the active configuration -------------------------------------------------------------

  /** Everything up to recording works. */
  predicate Recordable(o: ApplyOracle) {
    && o.readable && o.environment.Success? && o.invalid.None? && o.finds && o.id.Success? && ValidID(o.id.value)
    && o.created != 0 && o.activeReads && o.stamp != 0 && o.records
  }

  lemma WellRecords(w: World, o: ApplyOracle, born: Births)
    requires Invariant(w.db, born) && Valid(Load(w.db.tables)) && Recordable(o) && o.id.value !in w.db.revisions
    ensures Records(w, o)
  {
    hide Valid;
    hide Load;
    hide Compilable;
    hide Compiled;
    hide Identity.IdentityOf;
    hide Canonical;
    hide Sane;
    hide ValidID;
    hide Find;
    var x := Load(w.db.tables);
    LoadedBorn(w.db, born);
    ConfigIdentity.ValidIffCompilable(x);
    NewRevisionSane(x, o.created, born);
    CompiledHash(x);
  }

  /** One live process with this configuration and environment, as a first apply leaves it. */
  function Serving(config: Config, env: Environment): Runtime { Fields([Process(config, env, true, false)], Some(0), env, None) }

  lemma ServingRuns(config: Config, env: Environment)
    ensures var rt := Serving(config, env); OneChild(rt) && Running(rt) && !Stale(rt)
  {
  }

  /** The state in which a change of the port waits: revision 1 is active and runs. */
  lemma PortChanged(id: ID) returns (w: World)
    requires id == SampleID('1')
    ensures w == ApplyRuns.Run(Fresh(EmptyTables(80)), [ApplyRuns.ApplyAction(WellApplied(id)), ApplyRuns.Mutation(EmptyTables(81))])
    ensures Invariant(w.db, BornFirst) && OneChild(w.rt) && ApplyAgreement.Agree(w) && w.db.tables == EmptyTables(81)
    ensures Valid(Load(w.db.tables)) && Compilable(Load(w.db.tables)) && w.db.revisions.Keys == {id} && w.db.active == Some(id)
    ensures w.db.revisions[id].json != Compiled(Load(w.db.tables)).json
    ensures w.rt == Serving(w.db.revisions[id].json, map[])
  {
    hide Apply;
    hide Invariant;
    hide UpToDate;
    hide Pending;
    hide Valid;
    hide Load;
    hide Compilable;
    hide Compiled;
    hide GoodRows;
    hide AllWell;
    hide Keeps;
    hide Follows;
    hide Grown;
    hide OneChild;
    hide Serves;
    hide Identity.IdentityOf;
    var t, t2, o := EmptyTables(80), EmptyTables(81), WellApplied(id);
    EmptyTablesGood(80);
    EmptyTablesGood(81);
    Initial(t, BornFirst);
    WellAppliedIsWell('1', None, None);
    FirstApply(t, o, BornFirst);
    ApplyKeeps(Fresh(t), o, BornFirst);
    SuccessRuns(Fresh(t), o, BornFirst);
    var w1 := Apply(Fresh(t), o).0;
    w := w1.(db := Mutated(w1.db, t2));
    MutatedKeeps(w1.db, t2, BornFirst);
    ServingRuns(w.db.revisions[id].json, map[]);
    ConfigIdentity.ValidIffCompilable(Load(t2));
    PortCompiled(t);
    PortCompiled(t2);
    TwoSteps(Fresh(t), ApplyRuns.ApplyAction(o), ApplyRuns.Mutation(t2));
  }

  lemma TwoSteps(w: World, a: ApplyRuns.Action, b: ApplyRuns.Action)
    ensures ApplyRuns.Run(w, [a, b]) == ApplyRuns.Step(ApplyRuns.Step(w, a), b)
  {
    hide ApplyRuns.Step;
    assert [a, b][1..] == [b] && [b][1..] == [];
    var w1 := ApplyRuns.Step(w, a);
    var w2 := ApplyRuns.Step(w1, b);
    assert ApplyRuns.Run(w2, []) == w2;
    assert ApplyRuns.Run(w1, [b]) == w2;
  }

  /** The reload works and the health check after it does not: the apply fails, and a live process has another configuration
      than the active revision. */
  lemma DisagreeByApply() returns (w: World, o: ApplyOracle)
    ensures w == ApplyRuns.Run(Fresh(EmptyTables(80)),
                               [ApplyRuns.ApplyAction(WellApplied(SampleID('1'))), ApplyRuns.Mutation(EmptyTables(81))])
    ensures o == WellApplied(SampleID('2')).(healthAfter := false)
    ensures ApplyAgreement.Agree(w) && !ApplyAgreement.Agree(Apply(w, o).0)
  {
    hide Apply;
    hide Invariant;
    hide Valid;
    hide Load;
    hide Compilable;
    hide Compiled;
    hide GoodRows;
    hide OneChild;
    hide ApplyAgreement.Agree;
    hide Records;
    w := PortChanged(SampleID('1'));
    o := WellApplied(SampleID('2')).(healthAfter := false);
    SampleIDValid('2');
    assert SampleID('1')[35] == '1' && SampleID('2')[35] == '2';
    hide SampleID;
    hide ValidID;
    WellRecords(w, o, BornFirst);
    ServingRuns(w.db.revisions[SampleID('1')].json, map[]);
    ApplyDecides(w, o, BornFirst);
  }

  /** Reloading the one process of a settled manager. */
  lemma ServingFinished(w: World, id: ID, config: Config, hash: ConfigHash, previous: Revision, created: bool, o: ApplyOracle, was: Config)
    requires Usable(w.db, id) && previous.configHash != hash && w.rt == Serving(was, map[])
    requires o.environment == Success(map[]) && o.activation == WELL_ACTIVATED && o.healthAfter && o.marks
    ensures var (after, r) := Finished(w, id, created, config, hash, map[], Some(previous), o);
            r.Success? && after.rt == Serving(config, map[]) && after.db == MadeActive(w.db, id) && r.value.id == id
  {
    hide MadeActive;
    hide Noted;
  }

  /** The second revision applied as well. */
  lemma PortApplied() returns (w: World)
    ensures Invariant(w.db, BornFirst) && OneChild(w.rt) && ApplyAgreement.Agree(w)
    ensures w == ApplyRuns.Run(Fresh(EmptyTables(80)),
                               [ApplyRuns.ApplyAction(WellApplied(SampleID('1'))), ApplyRuns.Mutation(EmptyTables(81)),
                                ApplyRuns.ApplyAction(WellApplied(SampleID('2')))])
    ensures SampleID('1') in w.db.revisions && ActiveRevision(w.db).Some?
    ensures ActiveRevision(w.db).value.json != w.db.revisions[SampleID('1')].json
    ensures w.rt == Serving(ActiveRevision(w.db).value.json, map[])
  {
    hide Apply;
    hide Invariant;
    hide UpToDate;
    hide Valid;
    hide Load;
    hide Compilable;
    hide Compiled;
    hide GoodRows;
    hide OneChild;
    hide Serves;
    hide Records;
    hide Follows;
    hide Identity.IdentityOf;
    var before := PortChanged(SampleID('1'));
    var o := WellApplied(SampleID('2'));
    SampleIDValid('2');
    assert SampleID('1')[35] == '1' && SampleID('2')[35] == '2';
    hide SampleID;
    hide ValidID;
    WellRecords(before, o, BornFirst);
    w := Apply(before, o).0;
    PortRuntime(before, o);
    ApplyKeeps(before, o, BornFirst);
    SuccessRuns(before, o, BornFirst);
    SameContent(w.db.revisions[SampleID('1')], before.db.revisions[SampleID('1')]);
    ServingRuns(Compiled(Load(before.db.tables)).json, map[]);
    ThreeSteps(Fresh(EmptyTables(80)), ApplyRuns.ApplyAction(WellApplied(SampleID('1'))), ApplyRuns.Mutation(EmptyTables(81)),
               ApplyRuns.ApplyAction(o));
    TwoSteps(Fresh(EmptyTables(80)), ApplyRuns.ApplyAction(WellApplied(SampleID('1'))), ApplyRuns.Mutation(EmptyTables(81)));
  }

  lemma PortRuntime(w: World, o: ApplyOracle)
    requires Records(w, o) && o.before.None? && o.after.None? && ActiveRevision(w.db).Some?
    requires Invariant(w.db, BornFirst) && ActiveRevision(w.db).value.json != Compiled(Load(w.db.tables)).json
    requires w.rt == Serving(ActiveRevision(w.db).value.json, map[])
    requires o.environment == Success(map[]) && o.activation == WELL_ACTIVATED && o.healthAfter && o.marks
    ensures Apply(w, o).1.Success? && Apply(w, o).0.rt == Serving(Compiled(Load(w.db.tables)).json, map[])
  {
    hide Invariant;
    hide Valid;
    hide Load;
    hide Compilable;
    hide Compiled;
    hide Record;
    hide Finished;
    hide MadeActive;
    var x, r, active := Load(w.db.tables), Record(w.db, Load(w.db.tables), o), ActiveRevision(w.db).value;
    RecordedIsUsable(w.db, x, o);
    HashesTell(w.db, x, BornFirst);
    ServingFinished(World(r.db, w.rt), r.id, Compiled(x).json, Compiled(x).sha256, active, r.created, o, active.json);
  }

  /** The same with a restore of revision 1 whose health check fails. */
  lemma DisagreeByRestore() returns (w: World, id: ID, o: RestoreOracle)
    ensures o == WELL_RESTORED.(healthAfter := false) && id == SampleID('1')
    ensures w == ApplyRuns.Run(Fresh(EmptyTables(80)),
                               [ApplyRuns.ApplyAction(WellApplied(SampleID('1'))), ApplyRuns.Mutation(EmptyTables(81)),
                                ApplyRuns.ApplyAction(WellApplied(SampleID('2')))])
    ensures ApplyAgreement.Agree(w) && !ApplyAgreement.Agree(Restore(w, id, o).0)
  {
    hide Apply;
    hide Restore;
    hide Invariant;
    hide Verified;
    hide OneChild;
    hide Running;
    hide Stale;
    hide SampleID;
    hide ApplyAgreement.Agree;
    hide ApplyRuns.Run;
    w := PortApplied();
    id, o := SampleID('1'), WELL_RESTORED.(healthAfter := false);
    VerifiedAgain(w.db, id, BornFirst);
    ServingRuns(ActiveRevision(w.db).value.json, map[]);
    RestoreDisagrees(w, id, o);
  }

  lemma RestoreDisagrees(w: World, id: ID, o: RestoreOracle)
    requires Invariant(w.db, BornFirst) && ApplyAgreement.Agree(w) && OneChild(w.rt) && Running(w.rt) && !Stale(w.rt)
    requires Activates(w.db, id, o) && o.landed.None? && !o.healthAfter && Works(o.activation.reload) && o.environment.value == map[]
    requires ActiveRevision(w.db).Some? && ActiveRevision(w.db).value.json != w.db.revisions[id].json
    ensures !ApplyAgreement.Agree(Restore(w, id, o).0)
  {
    hide Restore;
    hide Invariant;
    hide Verified;
    hide OneChild;
    hide ApplyAgreement.Agree;
    hide ActiveRevision;
    RestoreDecides(w, id, o, BornFirst);
  }

  // ----- secrets that do not arrive, and secrets that stay ------------------------------------------------

  function SampleProfile(): TLSProfile {
    TLSProfile(SampleID('4'), Automatic, "h", Dns, Some(SampleID('a')), "", "", 1, 1)
  }

  function TLSTables(): Tables { ProviderTables('a').(tls := Some(SampleProfile())) }

  lemma HostnameValid()
    ensures ValidHostname("h")
  {
    assert TrimSpace("h") == "h" && "h"[1..] == "" && Split("", '.') == [""];
    assert ['h'] + "" == "h" && [""][1..] == [];
    assert Split("h", '.') == ["h"];
    assert ValidLabel("h");
  }

  lemma SampleProfileValid()
    ensures SampleProfile().Valid()
  {
    HostnameValid();
    SampleIDValid('4');
    SampleIDValid('a');
    hide SampleID;
    hide ValidID;
    hide ValidHostname;
  }

  lemma WithProfile(t: Tables, p: TLSProfile)
    requires GoodRows(t, BornFirst) && UniqueProviderNames(t)
    requires p.Valid() && p.challenge.Dns? && p.providerID.Some? && p.providerID.value in t.providers
    ensures GoodRows(t.(tls := Some(p)), BornFirst) && UniqueProviderNames(t.(tls := Some(p)))
  {
    hide TLSProfile.Valid;
    hide Provider.Valid;
    hide ServerSettings.Valid;
    hide User.Valid;
    hide Share.Valid;
    hide SharePermission.Valid;
    hide BornFirst;
  }

  lemma TLSTablesGood()
    ensures GoodRows(TLSTables(), BornFirst) && Valid(Load(TLSTables()))
  {
    hide Load;
    hide Valid;
    hide Sound;
    hide ValidRows;
    hide BornRows;
    hide UniqueProviderNames;
    hide TLSProfile.Valid;
    hide SampleID;
    SampleProfileValid();
    ProviderTablesGood('a');
    LoadValid(ProviderTables('a'));
    WithProfile(ProviderTables('a'), SampleProfile());
    LoadValid(TLSTables());
  }

  function SampleSecret(value: string): Registry.Secret { map["api_token" := value] }

  function SampleEnvironment(value: string): Environment {
    map[Registry.EnvironmentName(SampleID('a'), "api_token") := value]
  }

  lemma SampleSupplies(value: string)
    requires Registry.AcceptableValue(value)
    ensures Supplies(SampleEnvironment(value), Cloudflare, SampleID('a'), SampleSecret(value)) && FromProgram(SampleEnvironment(value))
  {
    hide Registry.AcceptableValue;
    hide Registry.EnvironmentName;
    SampleIDValid('a');
    hide SampleID;
    hide ValidID;
    var env, secret := SampleEnvironment(value), SampleSecret(value);
    assert "api_token" in secret;
    assert Supplies(env, Cloudflare, SampleID('a'), secret);
  }

  lemma OneLetter(value: string)
    requires value == "x" || value == "y"
    ensures Registry.AcceptableValue(value)
  {
    assert TrimSpace(value) == value && ByteLength(value) == 1;
  }

  /** A state with a DNS challenge, applied with its secret. */
  lemma SecretApplied() returns (w: World, first: ApplyOracle)
    ensures first == WellApplied(SampleID('1')).(environment := Success(SampleEnvironment("x")))
    ensures w == Apply(Fresh(TLSTables()), first).0 && Invariant(w.db, BornFirst)
    ensures w.db.tables == TLSTables() && Valid(Load(w.db.tables)) && SampleID('2') !in w.db.revisions
    ensures OneChild(w.rt) && Running(w.rt) && !Stale(w.rt) && w.rt.environment == SampleEnvironment("x")
  {
    hide Apply;
    hide Invariant;
    hide UpToDate;
    hide Pending;
    hide Valid;
    hide Load;
    hide Compilable;
    hide Compiled;
    hide GoodRows;
    hide Keeps;
    hide Follows;
    hide Grown;
    hide Identity.IdentityOf;
    hide SampleEnvironment;
    TLSTablesGood();
    Initial(TLSTables(), BornFirst);
    first := WellApplied(SampleID('1')).(environment := Success(SampleEnvironment("x")));
    OtherIDs();
    hide SampleID;
    hide ValidID;
    FirstApply(TLSTables(), first, BornFirst);
    ApplyKeeps(Fresh(TLSTables()), first, BornFirst);
    w := Apply(Fresh(TLSTables()), first).0;
    assert w.rt == Serving(Compiled(Load(TLSTables())).json, SampleEnvironment("x"));
    ServingRuns(Compiled(Load(TLSTables())).json, SampleEnvironment("x"));
  }

  /** A new secret, and a Caddy that answers the first health check late. */
  function LateOracle(): ApplyOracle {
    WellApplied(SampleID('2')).(environment := Success(SampleEnvironment("y")), activation := WELL_ACTIVATED.(restartHealth := false))
  }

  lemma LateCalls()
    ensures var o := LateOracle();
            && Recordable(o) && o.id == Success(SampleID('2')) && o.environment == Success(SampleEnvironment("y"))
            && o.marks && o.healthAfter && Works(o.activation.reload) && !o.activation.restartHealth
            && o.before.None? && o.after.None?
  {
    OtherIDs();
    hide SampleID;
    hide ValidID;
  }

  /** The secret is changed while Caddy answers the next health check late: the apply reloads it and succeeds, and the
      process has not got the new secret. */
  lemma SecretMissing() returns (w: World)
    ensures Supplies(SampleEnvironment("y"), Cloudflare, SampleID('a'), SampleSecret("y"))
    ensures w.db.tables == TLSTables() && LateOracle().environment == Success(SampleEnvironment("y"))
    ensures Apply(w, LateOracle()).1.Success?
    ensures var after := Apply(w, LateOracle()).0.rt;
            after.command.Some? && Current(after).alive && Current(after).environment != SampleEnvironment("y")
  {
    hide Apply;
    hide Invariant;
    hide Valid;
    hide GoodRows;
    hide Load;
    hide Records;
    hide Recordable;
    hide LateOracle;
    hide Works;
    hide OneChild;
    hide Running;
    hide Stale;
    hide FromProgram;
    hide Supplies;
    hide TLSTables;
    hide SampleSecret;
    hide SampleID;
    hide Registry.AcceptableValue;
    var first: ApplyOracle;
    w, first := SecretApplied();
    OneLetter("y");
    SampleSupplies("y");
    DifferentSecrets();
    hide SampleEnvironment;
    LateCalls();
    WellRecords(w, LateOracle(), BornFirst);
    NotArrived(w, LateOracle());
  }

  lemma OtherIDs()
    ensures ValidID(SampleID('1')) && ValidID(SampleID('2')) && SampleID('1') != SampleID('2')
  {
    SampleIDValid('1');
    SampleIDValid('2');
    assert SampleID('1')[35] == '1' && SampleID('2')[35] == '2';
  }

  /** Another environment is needed, and the process is only reloaded. */
  lemma NotArrived(w: World, o: ApplyOracle)
    requires Records(w, o) && o.marks && o.healthAfter && Works(o.activation.reload) && !o.activation.restartHealth
    requires OneChild(w.rt) && Running(w.rt) && !Stale(w.rt)
    requires FromProgram(o.environment.value) && w.rt.environment != o.environment.value
    ensures Apply(w, o).1.Success?
    ensures var after := Apply(w, o).0.rt;
            after.command.Some? && Current(after).alive && Current(after).environment != o.environment.value
  {
    hide Apply;
    hide Records;
    hide OneChild;
    hide Running;
    hide Stale;
    hide FromProgram;
    hide EnvironmentChanged;
    KeptRunning(w, o);
    SecretsArrive(w, o);
  }

  lemma DifferentSecrets()
    ensures SampleEnvironment("x") != SampleEnvironment("y")
    ensures SampleEnvironment("x") != map[] && SampleEnvironment("y") != map[]
  {
    hide Registry.EnvironmentName;
    var name := Registry.EnvironmentName(SampleID('a'), "api_token");
    assert SampleEnvironment("x")[name] == "x" && SampleEnvironment("y")[name] == "y";
  }

  /** A running process that is only reloaded: the apply succeeds, and asking changes nothing. */
  lemma KeptRunning(w: World, o: ApplyOracle)
    requires Records(w, o) && o.marks && o.healthAfter && Works(o.activation.reload)
    requires OneChild(w.rt) && Running(w.rt) && !Stale(w.rt)
    requires !o.activation.restartHealth || o.environment.value == map[]
    ensures Apply(w, o).1.Success? && EnvironmentChanged(w.rt, o.environment.value).0 == w.rt
  {
    hide Apply;
    hide Records;
    hide SameEnvironment;
    hide OneChild;
    hide Compilable;
    hide Compiled;
    hide Load;
    ApplySucceedsExactly(w, o);
  }

  lemma WellCalls(id: ID)
    requires ValidID(id)
    ensures var o := WellApplied(id);
            && Recordable(o) && o.id == Success(id) && o.environment == Success(map[])
            && o.marks && o.healthAfter && Works(o.activation.reload) && o.before.None? && o.after.None?
  {
    hide ValidID;
  }

  /** The DNS challenge is dropped, and the next apply needs no secret: the old one stays in the process. */
  lemma SecretStays() returns (w: World, o: ApplyOracle)
    ensures o == WellApplied(SampleID('2')) && w.db.tables == ProviderTables('a') && Apply(w, o).1.Success?
    ensures var after := Apply(w, o).0.rt;
            after.command.Some? && Current(after).alive && Current(after).environment != map[]
  {
    hide Apply;
    hide Invariant;
    hide Valid;
    hide GoodRows;
    hide Load;
    hide Records;
    hide Recordable;
    hide WellApplied;
    hide Works;
    hide OneChild;
    hide Running;
    hide Stale;
    hide UpToDate;
    hide Follows;
    hide ProviderTables;
    hide TLSTables;
    hide SampleID;
    hide ValidID;
    var before, first := SecretApplied();
    ProviderTablesGood('a');
    DifferentSecrets();
    hide SampleEnvironment;
    w := before.(db := Mutated(before.db, ProviderTables('a')));
    MutatedKeeps(before.db, ProviderTables('a'), BornFirst);
    OtherIDs();
    o := WellApplied(SampleID('2'));
    WellCalls(SampleID('2'));
    WellRecords(w, o, BornFirst);
    StillThere(w, o);
  }

  lemma StillThere(w: World, o: ApplyOracle)
    requires Records(w, o) && o.marks && o.healthAfter && Works(o.activation.reload) && o.environment.value == map[]
    requires OneChild(w.rt) && Running(w.rt) && !Stale(w.rt) && w.rt.environment != map[]
    ensures Apply(w, o).1.Success?
    ensures var after := Apply(w, o).0.rt;
            after.command.Some? && Current(after).alive && Current(after).environment != map[]
  {
    hide Apply;
    hide Records;
    hide OneChild;
    hide Running;
    hide Stale;
    KeptRunning(w, o);
    SecretsLinger(w, o);
  }
}
