/** When the DNS secrets reach the running process, and that the configuration there reads them. */
module SecretLimits {
  import opened Ordering
  import opened Domain
  import opened CaddyConfig
  import opened CaddyRuntime
  import opened RuntimeProperties
  import opened CompilerSpec
  import opened Tables
  import opened Database
  import opened Revisions
  import opened RevisionProperties
  import opened ApplySpec
  import opened ApplyProperties
  import opened RuntimeAgreement
  import opened ApplyAgreement
  import opened AgreementLimits
  import opened DNSEnvironment
  import Registry
  import Snapshot

  /** The process is launched and alive, or there is none. */
  predicate Settled(rt: Runtime) { rt.command.Some? ==> Current(rt).alive && !Current(rt).message }

  /** What the program passes as an environment: none, or the variables of an accepted secret. */
  ghost predicate FromProgram(env: Environment) {
    env == map[] || exists kind, id, secret :: Supplies(env, kind, id, secret)
  }

  lemma ProgramEnvironmentFilled(env: Environment)
    requires FromProgram(env)
    ensures forall k :: k in env ==> env[k] != ""
  {
    hide Supplies;
    if env != map[] {
      var kind, id, secret :| Supplies(env, kind, id, secret);
      FilledEnvironment(env, kind, id, secret);
    }
  }

  /** Asking about an environment of the program is exact, and only an empty one never counts as changed. */
  lemma ChangedExactly(rt: Runtime, env: Environment)
    requires FromProgram(env)
    ensures EnvironmentChanged(rt, env) ==
            if env == map[] then (rt, false) else (Drained(rt), !(Running(rt) && rt.environment == env))
  {
    hide FromProgram;
    hide SameEnvironment;
    ProgramEnvironmentFilled(env);
    SameWhenFilled(rt.environment, env);
  }

  // ----- the environment after an activation ----------------------------------------------------------

  lemma StartKeepsSettled(rt: Runtime, config: Config, env: Environment, o: StartOutcome)
    requires !Running(rt)
    ensures var (after, failure) := Started(rt, config, env, o);
            failure.None? ==> Settled(after) && after.command.Some? && after.environment == env
  {
  }

  lemma ReloadKeepsSettled(rt: Runtime, config: Config, o: ReloadOutcome)
    requires Settled(rt)
    ensures var (after, failure) := Reloaded(rt, config, o);
            failure.None? ==> Settled(after) && after.command.Some? && after.environment == rt.environment
  {
  }

  lemma ReplaceKeepsSettled(rt: Runtime, config: Config, env: Environment, previous: Option<Config>, was: Environment, a: Activation)
    ensures var (after, failure) := Replace(rt, config, env, previous, was, a);
            failure.None? ==> Settled(after) && after.command.Some? && after.environment == env
  {
    hide Started;
    var (stopped, problem) := StoppedBy(rt, a.stop);
    if problem.None? { StartKeepsSettled(stopped, config, env, a.start); }
  }

  lemma ActivatedEnvironment(rt: Runtime, config: Config, env: Environment, changed: bool, previous: Option<Config>,
                             was: Environment, a: Activation)
    requires !Stale(rt)
    ensures var (after, failure) := Activated(rt, config, env, changed, previous, was, a);
            failure.None? ==> Settled(after) && after.command.Some? && after.environment == EnvironmentAfter(rt, changed, env, a)
  {
    hide Started;
    hide Reloaded;
    hide Replace;
    if Running(rt) {
      ReloadKeepsSettled(rt, config, a.reload);
      ReplaceKeepsSettled(rt, config, env, previous, was, a);
    } else {
      var gone := Observed(rt, a.health).0;
      assert gone == Observed(rt, a.restartHealth).0 == Observed(gone, a.health).0;
      StartKeepsSettled(gone, config, env, a.start);
    }
  }

  lemma MarkedEnvironment(w: World, id: ID, created: bool, config: Config, env: Environment, changed: bool,
                          previous: Option<Config>, o: ApplyOracle)
    requires !Stale(w.rt) && id in w.db.revisions
    ensures var (after, r) := ActivateAndMark(w, id, created, config, env, changed, previous, o);
            r.Success? ==> Settled(after.rt) && after.rt.command.Some?
                           && after.rt.environment == EnvironmentAfter(w.rt, changed, env, o.activation)
  {
    hide Activated;
    hide EnvironmentAfter;
    hide MadeActive;
    hide Noted;
    hide Reloaded;
    hide StoppedBy;
    ActivatedEnvironment(w.rt, config, env, changed, previous, w.rt.environment, o.activation);
    var (rt, failure) := Activated(w.rt, config, env, changed, previous, w.rt.environment, o.activation);
    if failure.None? { assert Observed(rt, o.healthAfter).0 == rt; }
  }

  lemma FinishedEnvironment(w: World, id: ID, created: bool, config: Config, hash: ConfigHash, env: Environment,
                            previous: Option<Revision>, o: ApplyOracle)
    requires id in w.db.revisions && !Stale(EnvironmentChanged(w.rt, env).0)
    ensures var (asked, changed) := EnvironmentChanged(w.rt, env);
            var (after, r) := Finished(w, id, created, config, hash, env, previous, o);
            r.Success? ==> Settled(after.rt) && after.rt.command.Some?
                           && after.rt.environment == EnvironmentAfter(asked, changed, env, o.activation)
  {
    hide ActivateAndMark;
    hide EnvironmentChanged;
    hide MadeActive;
    hide Noted;
    var (asked, changed) := EnvironmentChanged(w.rt, env);
    var observed := Observed(asked, o.health).0;
    MarkedEnvironment(w.(rt := asked), id, created, config, env, changed, OptionalConfig(previous), o);
    MarkedEnvironment(w.(rt := observed), id, created, config, env, changed, OptionalConfig(previous), o);
    assert EnvironmentAfter(observed, changed, env, o.activation) == EnvironmentAfter(asked, changed, env, o.activation);
  }

  lemma StaleMark(w: World, id: ID, created: bool, config: Config, env: Environment, changed: bool, previous: Option<Config>,
                  o: ApplyOracle)
    requires OneChild(w.rt) && Stale(w.rt) && id in w.db.revisions
    ensures var (after, r) := ActivateAndMark(w, id, created, config, env, changed, previous, o);
            r.Success? ==> NoneAlive(after.rt)
  {
    hide Activated;
    hide MadeActive;
    hide Noted;
    hide Reloaded;
    hide StoppedBy;
    hide OneChild;
    StaleActivation(w.rt, config, env, changed, previous, w.rt.environment, o.activation);
  }

  lemma StaleFinish(w: World, id: ID, created: bool, config: Config, hash: ConfigHash, env: Environment,
                    previous: Option<Revision>, o: ApplyOracle)
    requires OneChild(w.rt) && id in w.db.revisions && Stale(EnvironmentChanged(w.rt, env).0)
    ensures var (after, r) := Finished(w, id, created, config, hash, env, previous, o);
            r.Success? ==> NoneAlive(after.rt)
  {
    hide ActivateAndMark;
    hide EnvironmentChanged;
    hide MadeActive;
    hide Noted;
    hide OneChild;
    AskOneChild(w.rt, env);
    var (asked, changed) := EnvironmentChanged(w.rt, env);
    StaleMark(w.(rt := asked), id, created, config, env, changed, OptionalConfig(previous), o);
    RunningExact(asked);
  }

  lemma ArrivesWhen(rt: Runtime, env: Environment, a: Activation)
    requires OneChild(rt) && FromProgram(env) && !Stale(EnvironmentChanged(rt, env).0)
    ensures var (asked, changed) := EnvironmentChanged(rt, env);
            EnvironmentAfter(asked, changed, env, a) == env <==>
            rt.environment == env || !Running(rt) || (env != map[] && a.restartHealth)
  {
    hide FromProgram;
    hide EnvironmentChanged;
    ChangedExactly(rt, env);
    assert Running(rt) ==> Drained(rt) == rt;
    assert Drained(rt).environment == rt.environment;
  }

  /** After a successful apply of a manager that asking has not made stale, a process lives.  It has the environment that was
      asked for exactly if it had it before, was not running, or needed another, not empty one, and answered the health
      check that chooses restart over reload.  Under a stale manager nothing lives. */
  lemma SecretsArrive(w: World, o: ApplyOracle)
    requires OneChild(w.rt) && Apply(w, o).1.Success? && FromProgram(o.environment.value)
    ensures var env, after := o.environment.value, Apply(w, o).0.rt;
            if Stale(EnvironmentChanged(w.rt, env).0) then NoneAlive(after)
            else
              && after.command.Some? && Current(after).alive
              && (Current(after).environment == env <==>
                    w.rt.environment == env || !Running(w.rt) || (env != map[] && o.activation.restartHealth))
  {
    hide Snapshot.Valid;
    hide Compilable;
    hide Compiled;
    hide Load;
    hide Record;
    hide Finished;
    hide FromProgram;
    hide OneChild;
    hide NoneAlive;
    hide EnvironmentChanged;
    var x, r, env := Load(w.db.tables), Record(Landed(w.db, o.before), Load(w.db.tables), o), o.environment.value;
    RecordStored(Landed(w.db, o.before), x, o);
    var middle := World(Landed(r.db, o.after), w.rt);
    if Stale(EnvironmentChanged(w.rt, env).0) {
      StaleFinish(middle, r.id, r.created, Compiled(x).json, Compiled(x).sha256, env, ActiveRevision(w.db), o);
    } else {
      FinishedEnvironment(middle, r.id, r.created, Compiled(x).json, Compiled(x).sha256, env, ActiveRevision(w.db), o);
      ArrivesWhen(w.rt, env, o.activation);
      ApplyOneChild(w, o);
      InheritedEnvironment(Apply(w, o).0.rt);
    }
  }

  lemma InheritedEnvironment(rt: Runtime)
    requires OneChild(rt) && rt.command.Some? && Current(rt).alive
    ensures Current(rt).environment == rt.environment
  {
  }

  /** The old secrets stay in the process when none are needed any more: exactly when it was running with some. */
  lemma SecretsLinger(w: World, o: ApplyOracle)
    requires OneChild(w.rt) && !Stale(w.rt) && Apply(w, o).1.Success? && o.environment.value == map[]
    ensures Apply(w, o).0.rt.command.Some? && Current(Apply(w, o).0.rt).alive
    ensures Current(Apply(w, o).0.rt).environment != map[] <==> Running(w.rt) && w.rt.environment != map[]
  {
    hide Apply;
    hide OneChild;
    SecretsArrive(w, o);
  }

  // ----- what Caddy reads ---------------------------------------------------------------------------------

  /** The automation block of a state whose DNS challenge names p. */
  lemma CompiledBlock(x: State, p: Provider)
    requires Compilable(x) && x.tls.Some? && x.tls.value.challenge.Dns? && x.tls.value.providerID == Some(p.id) && p in x.providers
    ensures Registry.For(p.kind).Some?
    ensures Compiled(x).json.tls == Some(DNSIssuer(x.tls.value.hostname, Registry.ProviderBlock(Registry.For(p.kind).value, p.id)))
  {
    hide AllRoutes;
    hide Snapshot.ValidUsers;
    hide Snapshot.ValidShares;
    hide Snapshot.ValidPermissions;
    hide Provider.Valid;
    hide Registry.For;
    KindOfProvider(x, p);
  }

  lemma KindOfProvider(x: State, p: Provider)
    requires Distinct(x.providers, ProviderID) && p in x.providers
    ensures Snapshot.KnownProvider(x.providers, p.id) && KindOf(x.providers, p.id) == p.kind
  {
    var q :| q in x.providers && q.id == p.id && q.kind == KindOf(x.providers, p.id);
    var i :| 0 <= i < |x.providers| && x.providers[i] == p;
    var j :| 0 <= j < |x.providers| && x.providers[j] == q;
    assert ProviderID(x.providers[i]) == ProviderID(x.providers[j]);
  }

  /** From the vault to Caddy: after a successful apply of a state with a DNS challenge, when the secrets arrive, the
      live process runs a configuration whose every provider field reads the stored secret, and reads nothing else. */
  lemma SecretsAreRead(w: World, o: ApplyOracle, p: Provider, secret: Registry.Secret, field: string, born: Births)
    requires Invariant(w.db, born) && GoodLanding(o.before, born) && GoodLanding(o.after, born)
    requires OneChild(w.rt) && Agree(w) && Apply(w, o).1.Success?
    requires var tls := w.db.tables.tls;
             tls.Some? && tls.value.challenge.Dns? && tls.value.providerID == Some(p.id) && p in Load(w.db.tables).providers
    requires Supplies(o.environment.value, p.kind, p.id, secret) && !Stale(EnvironmentChanged(w.rt, o.environment.value).0)
    requires w.rt.environment == o.environment.value || !Running(w.rt) || o.activation.restartHealth
    requires field in Registry.For(p.kind).value.caddyFields
    ensures var after, a := Apply(w, o).0.rt, Registry.For(p.kind).value;
            && after.command.Some? && Current(after).alive && Current(after).config.tls.Some?
            && Current(after).config.tls.value.DNSIssuer? && field in Current(after).config.tls.value.provider
            && Registry.Expand(Current(after).config.tls.value.provider[field], Current(after).environment) ==
               if a.caddyFields[field] in secret then secret[a.caddyFields[field]] else ""
  {
    hide Invariant;
    hide Compilable;
    hide Compiled;
    hide Apply;
    hide Load;
    hide OneChild;
    hide Registry.For;
    hide Registry.ValidSecret;
    hide Registry.EnvironmentOf;
    hide Registry.Expand;
    hide Registry.WellFormed;
    var after, x := Apply(w, o).0.rt, Load(w.db.tables);
    SuccessRecords(w, o);
    FilledEnvironment(o.environment.value, p.kind, p.id, secret);
    SecretsArrive(w, o);
    SuccessRuns(w, o, born);
    RunsCompiled(w, o, born);
    LoadedProfile(w.db.tables);
    CompiledBlock(x, p);
    Registry.AdapterWellFormed(p.kind);
    Registry.SecretResolves(Registry.For(p.kind).value, p.id, secret, o.environment.value, field);
  }

  lemma SuccessRecords(w: World, o: ApplyOracle)
    requires Apply(w, o).1.Success?
    ensures Records(w, o)
  {
  }

  lemma LoadedProfile(t: Tables)
    ensures Load(t).tls == t.tls
  {
  }

  lemma RunsCompiled(w: World, o: ApplyOracle, born: Births)
    requires Invariant(w.db, born) && GoodLanding(o.before, born) && GoodLanding(o.after, born) && Apply(w, o).1.Success?
    ensures Compilable(Load(w.db.tables)) && Apply(w, o).1.value.revision.json == Compiled(Load(w.db.tables)).json
  {
    hide Invariant;
    hide Compilable;
    hide Compiled;
    hide Apply;
    hide Load;
    hide Snapshot.Valid;
    ApplyKeeps(w, o, born);
  }
}
