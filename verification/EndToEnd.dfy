/** From the tables to the process: what a running Caddy serves while nothing is pending. */
module EndToEnd {
  import opened Ordering
  import opened Domain
  import opened CaddyConfig
  import opened CaddyRuntime
  import opened RuntimeProperties
  import opened CompilerSpec
  import opened Tables
  import opened Database
  import opened Revisions
  import opened RevisionProperties
  import opened ApplySpec
  import opened ApplyProperties
  import opened ApplyRuns
  import opened RuntimeAgreement
  import opened ApplyAgreement
  import opened AgreementLimits
  import opened Acl

  /** In every run whose applies and restores settle, without mutations inside an apply: whenever nothing is pending and a
      revision is active, every live process has the configuration that the current tables compile to. */
  lemma LiveConfiguration(w: World, actions: seq<Action>, i: nat, born: Births)
    requires Invariant(w.db, born) && UpToDate(w.db) && OneChild(w.rt) && Agree(w)
    requires AllSettle(w, actions) && forall k :: 0 <= k < |actions| ==> Admissible(actions[k], born) && Quiet(actions[k])
    requires var after := ApplyRuns.Run(w, actions);
             && !Pending(after.db) && after.db.active.Some? && i < |after.rt.processes| && after.rt.processes[i].alive
    ensures var after := ApplyRuns.Run(w, actions);
            && Compilable(Load(after.db.tables))
            && after.rt.processes[i].config == Compiled(Load(after.db.tables)).json
  {
    hide Invariant;
    hide UpToDate;
    hide Admissible;
    hide Quiet;
    hide AllSettle;
    hide OneChild;
    hide Compilable;
    hide Compiled;
    hide Load;
    hide ApplyRuns.Run;
    NotPendingMeansApplied(w, actions, born);
    AgreesExactly(w, actions, born);
    assert actions[..|actions|] == actions;
  }

  /** Then the live process answers a request for a managed host from a share exactly when the access-control list in the
      current tables allows it, and with that share's root and prefix. */
  lemma LiveProcessServesTheTables(w: World, actions: seq<Action>, i: nat, born: Births,
                                   r: Request, root: string, prefix: string, a: Account)
    requires Invariant(w.db, born) && UpToDate(w.db) && OneChild(w.rt) && Agree(w)
    requires AllSettle(w, actions) && forall k :: 0 <= k < |actions| ==> Admissible(actions[k], born) && Quiet(actions[k])
    requires var after := ApplyRuns.Run(w, actions);
             && !Pending(after.db) && after.db.active.Some? && i < |after.rt.processes| && after.rt.processes[i].alive
             && HostManaged(Load(after.db.tables), r.host) && Unshadowed(Load(after.db.tables))
    ensures var after := ApplyRuns.Run(w, actions);
            Serve(after.rt.processes[i].config.davdeck.routes, r) == ServedShare(root, prefix, a) <==>
            AclServes(Load(after.db.tables), r, root, prefix, a)
  {
    hide Invariant;
    hide UpToDate;
    hide Admissible;
    hide Quiet;
    hide AllSettle;
    hide OneChild;
    hide Compilable;
    hide Compiled;
    hide Load;
    hide Serve;
    hide AclServes;
    hide HostManaged;
    hide Unshadowed;
    hide ApplyRuns.Run;
    LiveConfiguration(w, actions, i, born);
    RoutesMeanTheAcl(Load(ApplyRuns.Run(w, actions).db.tables), r, root, prefix, a);
  }
}
