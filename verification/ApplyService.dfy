/** The service that records, activates, restores and deletes revisions, one call at a time. */
module ApplyService {
  import opened Ordering
  import opened Domain
  import opened Snapshot
  import opened Identity
  import opened CaddyConfig
  import opened CaddyRuntime
  import opened CompilerSpec
  import opened Tables
  import opened Database
  import opened Revisions
  import opened RevisionProperties
  import opened ApplySpec
  import Compiler
  import SnapshotRepository

  lemma FindUnique(db: Db, config: ConfigHash, state: StateHash, id: ID)
    requires UniqueNumbers(db) && Newest(db, id, config, state)
    ensures Find(db, config, state) == Some(id)
  {
  }

  /** A mutation by another service, which does not take the apply lock. */
  method Land(db: Database, t: Option<Tables>)
    modifies db
    ensures db.View() == Landed(old(db.View()), t)
  {
    if t.Some? { db.tables, db.dirty := t.value, true; }
  }

  class ApplyService {
    const db: Database
    const snapshots: SnapshotRepository.SnapshotRepository
    const revisions: RevisionRepository
    const runtime: RuntimeManager
    var busy: bool

    ghost predicate Wired()
      reads this, runtime
    {
      snapshots.db == db && revisions.db == db && runtime.Valid()
    }

    ghost function View(): World
      requires Wired()
      reads this, runtime, db
    {
      World(db.View(), runtime.View())
    }

    constructor (db: Database, runtime: RuntimeManager)
      requires runtime.Valid()
      ensures Wired() && !busy && this.db == db && this.runtime == runtime
    {
      this.db, this.runtime, busy := db, runtime, false;
      snapshots := new SnapshotRepository.SnapshotRepository(db);
      revisions := new RevisionRepository(db);
    }

    method EnvironmentChanged(env: Environment) returns (changed: bool)
      requires Wired()
      modifies runtime
      ensures Wired() && (runtime.View(), changed) == ApplySpec.EnvironmentChanged(old(runtime.View()), env)
    {
      if |env| == 0 { return false; }
      var same := runtime.EnvironmentMatches(env);
      return !same;
    }

    method Activate(config: Config, env: Environment, restart: bool, previous: Option<Config>, previousEnv: Environment,
                    a: Activation) returns (failure: Option<ErrorCode>)
      requires Wired()
      modifies runtime
      ensures Wired()
      ensures (runtime.View(), failure) == Activated(old(runtime.View()), config, env, restart, previous, previousEnv, a)
    {
      hide Started;
      hide Reloaded;
      hide StoppedBy;
      hide Observed;
      if restart {
        var before := runtime.Status(a.restartHealth);
        if before.RuntimeRunning? {
          failure := runtime.Stop(a.stop);
          if failure.Some? { return; }
          failure := runtime.StartWithEnvironment(config, env, a.start);
          if failure.Some? && previous.Some? {
            var _ := runtime.StartWithEnvironment(previous.value, previousEnv, a.back);
          }
          return;
        }
      }
      var state := runtime.Status(a.health);
      if state.RuntimeStopped? || state.RuntimeFailed? {
        failure := runtime.StartWithEnvironment(config, env, a.start);
      } else {
        failure := runtime.Reload(config, a.reload);
      }
    }

    method ActivateChecked(config: Config, env: Environment, restart: bool, previous: Option<Config>, previousEnv: Environment,
                           a: Activation, health: bool) returns (failure: Option<ErrorCode>)
      requires Wired()
      modifies runtime
      ensures Wired()
      ensures (runtime.View(), failure) == Checked(old(runtime.View()), config, env, restart, previous, previousEnv, a, health)
    {
      hide Activated;
      failure := Activate(config, env, restart, previous, previousEnv, a);
      if failure.None? {
        var state := runtime.Status(health);
        if !state.RuntimeRunning? { failure := Some(RuntimeUnhealthy); }
      }
    }

    /** The revision for a compiled state is found or created, and becomes the desired one. */
    method RecordDesired(ghost x: State, compiled: CompiledConfig, body: Body, hash: StateHash, o: ApplyOracle)
      returns (id: Option<ID>, created: bool, previous: Option<Revision>)
      requires Wired() && UniqueNumbers(db.View()) && Valid(x) && Compilable(x)
      requires compiled == Compiled(x) && Marshaled(x) == Success(body) && StateHashed(x) == Success(hash)
      modifies db
      ensures Wired() && (id.Some? ==> id.value in db.revisions)
      ensures match Record(old(db.View()), x, o)
              case NotRecorded => id.None? && db.View() == old(db.View())
              case Recorded(after, stored, isNew) =>
                id == Some(stored) && created == isNew && db.View() == after && previous == ActiveRevision(old(db.View()))
    {
      hide Valid;
      hide Compilable;
      hide Compiled;
      hide IdentityOf;
      hide Canonical;
      hide UniqueNumbers;
      created, previous := false, None;
      var search := revisions.FindByIdentity(compiled.sha256, hash, !o.finds);
      if search.Failure? { return None, created, previous; }
      var found := search.value;
      created := found.None?;
      if found.Some? {
        FindUnique(db.View(), compiled.sha256, hash, found.value);
      } else {
        assert Find(db.View(), compiled.sha256, hash).None?;
        if o.id.Failure? || o.created == 0 { return None, created, previous; }
      }
      if !o.activeReads { return None, created, previous; }
      previous := revisions.Active();
      if o.stamp == 0 { return None, created, previous; }
      if created {
        var revision := Revision(0, o.created, compiled.json, body, compiled.sha256, hash, ValidConfig, NotApplied, None);
        assert revision == NewRevision(x, o.created);
        var stored := revisions.Create(o.id.value, revision, !o.records);
        return if stored.Some? then Some(o.id.value) else None, created, previous;
      }
      var ok := revisions.SetDesired(found.value, !o.records);
      return if ok then found else None, created, previous;
    }

    method NoteFailure(id: ID, created: bool, code: ErrorCode, o: ApplyOracle)
      requires Wired()
      modifies db
      ensures Wired() && db.View() == Noted(old(db.View()), id, created, code, o)
    {
      if created { var _ := revisions.MarkFailed(id, code, !o.marksFailed); }
    }

    method MarkRunning(r: Returned, created: bool, o: ApplyOracle) returns (result: Result<Returned>)
      requires Wired() && r.id in db.revisions && r.revision == db.revisions[r.id]
      modifies db
      ensures Wired() && (View(), result) == MarkOnly(old(View()), r.id, created, o)
    {
      var ok := revisions.MarkApplied(r.id, !o.marks);
      if !ok {
        NoteFailure(r.id, created, DatabaseFailed, o);
        return Failure;
      }
      return Success(r.(revision := r.revision.(status := Applied)));
    }

    method ActivateThenMark(r: Returned, created: bool, config: Config, env: Environment, changed: bool,
                            previous: Option<Config>, o: ApplyOracle) returns (result: Result<Returned>)
      requires Wired() && r.id in db.revisions && r.revision == db.revisions[r.id]
      modifies db, runtime
      ensures Wired() && (View(), result) == ActivateAndMark(old(View()), r.id, created, config, env, changed, previous, o)
    {
      hide Checked;
      hide Reloaded;
      hide StoppedBy;
      hide MadeActive;
      hide Noted;
      var previousEnv := runtime.environment;
      var failure := ActivateChecked(config, env, changed, previous, previousEnv, o.activation, o.healthAfter);
      if failure.Some? {
        NoteFailure(r.id, created, failure.value, o);
        return Failure;
      }
      var ok := revisions.MarkApplied(r.id, !o.marks);
      if !ok {
        if previous.Some? {
          var _ := runtime.Reload(previous.value, o.undoReload);
        } else {
          var _ := runtime.Stop(o.undoStop);
        }
        NoteFailure(r.id, created, DatabaseFailed, o);
        return Failure;
      }
      return Success(r.(revision := r.revision.(status := Applied)));
    }

    method Finish(r: Returned, created: bool, compiled: CompiledConfig, env: Environment, previous: Option<Revision>, o: ApplyOracle)
      returns (result: Result<Returned>)
      requires Wired() && r.id in db.revisions && r.revision == db.revisions[r.id]
      modifies db, runtime
      ensures Wired()
      ensures (View(), result) == Finished(old(View()), r.id, created, compiled.json, compiled.sha256, env, previous, o)
    {
      hide ActivateAndMark;
      hide MarkOnly;
      var changed := EnvironmentChanged(env);
      if previous.Some? && previous.value.configHash == compiled.sha256 {
        var state := runtime.Status(o.health);
        if state.RuntimeRunning? && !changed {
          result := MarkRunning(r, created, o);
          return;
        }
      }
      result := ActivateThenMark(r, created, compiled.json, env, changed, OptionalConfig(previous), o);
    }

    method ApplyUnlocked(o: ApplyOracle) returns (result: Result<Returned>)
      requires Wired() && UniqueNumbers(db.View())
      modifies db, runtime
      ensures Wired() && (View(), result) == ApplySpec.Apply(old(View()), o)
    {
      hide Valid;
      hide Compilable;
      hide Compiled;
      hide Load;
      hide IdentityOf;
      hide Canonical;
      hide Finished;
      hide Record;
      ghost var t := db.tables;
      ghost var x := Load(t);
      var snapshot := snapshots.Snapshot(!o.readable);
      Land(db, o.before);
      if snapshot.Failure? {
        if Valid(x) { SnapshotRepository.ValidScans(t); }
        return Failure;
      }
      var compiled := Compiler.Compile(snapshot.value);
      if compiled.Failure? || o.environment.Failure? || o.invalid.Some? { return Failure; }
      CanonicalValid(x);
      var body := Marshal(snapshot.value);
      if body.Failure? { return Failure; }
      var hash := HashState(snapshot.value);
      if hash.Failure? { return Failure; }
      var id, created, previous := RecordDesired(x, compiled.value, body.value, hash.value, o);
      if id.None? { return Failure; }
      var revision := db.revisions[id.value];
      Land(db, o.after);
      result := Finish(Returned(id.value, revision), created, compiled.value, o.environment.value, previous, o);
    }

    /** Apply: refused while another call holds the lock. */
    method Apply(o: ApplyOracle) returns (result: Result<Returned>)
      requires Wired() && UniqueNumbers(db.View())
      modifies this`busy, db, runtime
      ensures Wired() && busy == old(busy)
      ensures if old(busy) then View() == old(View()) && result.Failure? else (View(), result) == ApplySpec.Apply(old(View()), o)
    {
      hide ApplySpec.Apply;
      if busy { return Failure; }
      busy := true;
      result := ApplyUnlocked(o);
      busy := false;
    }

    method Launch(config: Config, env: Environment, o: StartOracle) returns (ok: bool)
      requires Wired()
      modifies runtime
      ensures Wired() && (runtime.View(), ok) == Launched(old(runtime.View()), config, env, o)
    {
      var failure := runtime.StartWithEnvironment(config, env, o.start);
      if failure.Some? { return false; }
      var state := runtime.Status(o.health);
      return state.RuntimeRunning?;
    }

    method StartUnlocked(o: StartOracle, stop: bool) returns (ok: bool)
      requires Wired() && UniqueNumbers(db.View())
      modifies db, runtime
      ensures Wired() && (View(), ok) == ApplySpec.Start(old(View()), o, stop)
    {
      hide ApplySpec.Apply;
      hide Launched;
      hide StoppedBy;
      hide Parsed;
      if !o.activeReads { return false; }
      var active := revisions.Active();
      if active.None? {
        var applied := ApplyUnlocked(o.apply);
        return applied.Success?;
      }
      var state := Parse(active.value.body);
      if state.Failure? {
        var applied := ApplyUnlocked(o.apply);
        return applied.Success?;
      }
      if o.environment.Failure? { return false; }
      if stop {
        var failure := runtime.Stop(o.stop);
        if failure.Some? { return false; }
      }
      ok := Launch(active.value.json, o.environment.value, o);
    }

    /** Start, and Restart when stop is set. */
    method Start(o: StartOracle, stop: bool) returns (ok: bool)
      requires Wired() && UniqueNumbers(db.View())
      modifies this`busy, db, runtime
      ensures Wired() && busy == old(busy)
      ensures if old(busy) then View() == old(View()) && !ok else (View(), ok) == ApplySpec.Start(old(View()), o, stop)
    {
      hide ApplySpec.Start;
      if busy { return false; }
      busy := true;
      ok := StartUnlocked(o, stop);
      busy := false;
    }

    method Stop(o: StopOutcome) returns (ok: bool)
      requires Wired()
      modifies this`busy, runtime
      ensures Wired() && busy == old(busy)
      ensures if old(busy) then View() == old(View()) && !ok else (View(), ok) == ApplySpec.Stop(old(View()), o)
    {
      if busy { return false; }
      busy := true;
      var failure := runtime.Stop(o);
      busy := false;
      return failure.None?;
    }

    method Delete(id: ID, works: bool) returns (ok: bool)
      requires Wired()
      modifies this`busy, db
      ensures Wired() && busy == old(busy)
      ensures if old(busy) then View() == old(View()) && !ok else (View(), ok) == ApplySpec.Delete(old(View()), id, works)
    {
      if busy { return false; }
      busy := true;
      ok := revisions.Delete(id, !works);
      busy := false;
    }

    /** Reads a revision back and compiles it again. */
    method Verify(id: ID) returns (x: Result<State>)
      requires Wired()
      ensures x.Success? <==> id in db.revisions && Verified(db.revisions[id])
      ensures x.Success? ==> Parsed(db.revisions[id].body) == x
    {
      hide Compilable;
      hide Compiled;
      hide ValidSnapshot;
      if id !in db.revisions { return Failure; }
      var r := db.revisions[id];
      if !r.validation.ValidConfig? || r.body.NoBody? { return Failure; }
      x := Parse(r.body);
      if x.Failure? { return; }
      var compiled := Compiler.Compile(x.value);
      if compiled.Failure? || compiled.value.sha256 != r.configHash || compiled.value.json != r.json { return Failure; }
    }

    method Compensate(previous: Option<Config>, previousEnv: Environment, o: RestoreOracle)
      requires Wired()
      modifies runtime
      ensures Wired() && runtime.View() == PutBack(old(runtime.View()), previous, previousEnv, o)
    {
      hide Reloaded;
      hide StoppedBy;
      hide Started;
      if previous.None? {
        var _ := runtime.Stop(o.undoStop);
        return;
      }
      var state := runtime.Status(o.undoHealth);
      if state.RuntimeRunning? {
        var changed := EnvironmentChanged(previousEnv);
        if changed {
          var _ := runtime.Stop(o.undoStop);
          var _ := runtime.StartWithEnvironment(previous.value, previousEnv, o.undoStart);
          return;
        }
      }
      var _ := runtime.Reload(previous.value, o.undoReload);
    }

    method RestoreUnlocked(id: ID, o: RestoreOracle) returns (result: Result<Returned>)
      requires Wired()
      modifies db, runtime
      ensures Wired() && (View(), result) == ApplySpec.Restore(old(View()), id, o)
    {
      hide Verified;
      hide Checked;
      hide PutBack;
      hide Restorable;
      hide RestoredTables;
      hide ApplySpec.EnvironmentChanged;
      hide Revisions.Restored;
      if !o.readable { return Failure; }
      var x := Verify(id);
      if x.Failure? || o.environment.Failure? || o.invalid.Some? || !o.activeReads { return Failure; }
      var r, env := db.revisions[id], o.environment.value;
      var active := revisions.Active();
      var previous, previousEnv := OptionalConfig(active), runtime.environment;
      var changed := EnvironmentChanged(env);
      var failure := ActivateChecked(r.json, env, changed, previous, previousEnv, o.activation, o.healthAfter);
      if failure.Some? || o.stamp == 0 { return Failure; }
      Land(db, o.landed);
      var ok := revisions.RestoreState(x.value, id, !o.writes);
      if !ok {
        Compensate(previous, previousEnv, o);
        return Failure;
      }
      return Success(Returned(id, r.(status := Applied, error := None)));
    }

    method Restore(id: ID, o: RestoreOracle) returns (result: Result<Returned>)
      requires Wired()
      modifies this`busy, db, runtime
      ensures Wired() && busy == old(busy)
      ensures if old(busy) then View() == old(View()) && result.Failure? else (View(), result) == ApplySpec.Restore(old(View()), id, o)
    {
      hide ApplySpec.Restore;
      if busy { return Failure; }
      busy := true;
      result := RestoreUnlocked(id, o);
      busy := false;
    }
  }
}
