/** What applying, starting, stopping, restoring and deleting do to the database and the managed process. */
module ApplySpec {
  import opened Ordering
  import opened Domain
  import opened Snapshot
  import opened Identity
  import opened CaddyConfig
  import opened CaddyRuntime
  import opened CompilerSpec
  import opened Tables
  import opened Database
  import opened Revisions
  import opened RevisionProperties

  datatype World = World(db: Db, rt: Runtime)

  /** A revision as the service returns it. */
  datatype Returned = Returned(id: ID, revision: Revision)

  // ----- what the outside world decides --------------------------------------------------------------

  /** Health answers and runtime outcomes during one activation. */
  datatype Activation = Activation(
    restartHealth: bool, stop: StopOutcome, start: StartOutcome, back: StartOutcome, health: bool, reload: ReloadOutcome)

  /** One apply: which calls succeed, what they answer, and the mutations that land while it runs, before and
      after the revision is recorded.  A clock value of 0 is not a valid timestamp. */
  datatype ApplyOracle = ApplyOracle(
    readable: bool, environment: Result<Environment>, invalid: Option<ErrorCode>, finds: bool,
    id: Result<ID>, created: Timestamp, activeReads: bool, stamp: Timestamp, records: bool,
    before: Option<Tables>, after: Option<Tables>,
    health: bool, activation: Activation, healthAfter: bool,
    marks: bool, marksFailed: bool, undoReload: ReloadOutcome, undoStop: StopOutcome)

  datatype RestoreOracle = RestoreOracle(
    readable: bool, environment: Result<Environment>, invalid: Option<ErrorCode>, activeReads: bool,
    activation: Activation, healthAfter: bool, stamp: Timestamp, landed: Option<Tables>, writes: bool,
    undoHealth: bool, undoStop: StopOutcome, undoStart: StartOutcome, undoReload: ReloadOutcome)

  datatype StartOracle = StartOracle(
    activeReads: bool, environment: Result<Environment>, stop: StopOutcome, start: StartOutcome, health: bool, apply: ApplyOracle)

  // ----- activation ---------------------------------------------------------------------------------------

  /** runtimeEnvironmentChanged: an empty requirement never counts as changed. */
  function EnvironmentChanged(rt: Runtime, env: Environment): (Runtime, bool) {
    if env == map[] then (rt, false)
    else var (after, same) := Matched(rt, env); (after, !same)
  }

  function OptionalConfig(r: Option<Revision>): Option<Config> { if r.Some? then Some(r.value.json) else None }

  function StartOrReload(rt: Runtime, config: Config, env: Environment, a: Activation): (Runtime, Option<ErrorCode>) {
    var (observed, state) := Observed(rt, a.health);
    if state.RuntimeStopped? || state.RuntimeFailed? then Started(observed, config, env, a.start)
    else Reloaded(observed, config, a.reload)
  }

  /** Stop and start; if the new configuration does not start, the previous one is started again. */
  function Replace(rt: Runtime, config: Config, env: Environment, previous: Option<Config>, previousEnv: Environment,
                   a: Activation): (Runtime, Option<ErrorCode>) {
    var (stopped, failure) := StoppedBy(rt, a.stop);
    if failure.Some? then (stopped, failure)
    else
      var (started, problem) := Started(stopped, config, env, a.start);
      if problem.None? then (started, None)
      else (if previous.Some? then Started(started, previous.value, previousEnv, a.back).0 else started, problem)
  }

  /** activate. */
  function Activated(rt: Runtime, config: Config, env: Environment, restart: bool, previous: Option<Config>,
                     previousEnv: Environment, a: Activation): (Runtime, Option<ErrorCode>) {
    if restart then
      var (observed, state) := Observed(rt, a.restartHealth);
      if state.RuntimeRunning? then Replace(observed, config, env, previous, previousEnv, a)
      else StartOrReload(observed, config, env, a)
    else StartOrReload(rt, config, env, a)
  }

  /** activate, followed by the health check. */
  function Checked(rt: Runtime, config: Config, env: Environment, restart: bool, previous: Option<Config>,
                   previousEnv: Environment, a: Activation, health: bool): (Runtime, Option<ErrorCode>) {
    var (activated, failure) := Activated(rt, config, env, restart, previous, previousEnv, a);
    if failure.Some? then (activated, failure)
    else
      var (observed, state) := Observed(activated, health);
      (observed, if state.RuntimeRunning? then None else Some(RuntimeUnhealthy))
  }

  // ----- apply -----------------------------------------------------------------------------------------------

  function Landed(db: Db, t: Option<Tables>): Db { if t.Some? then Mutated(db, t.value) else db }

  function ActiveRevision(db: Db): Option<Revision> {
    if db.active.Some? && db.active.value in db.revisions then Some(db.revisions[db.active.value]) else None
  }

  /** The newest stored revision with this identity. */
  ghost function Find(db: Db, config: ConfigHash, state: StateHash): Option<ID> {
    if exists id :: Newest(db, id, config, state) then var id :| Newest(db, id, config, state); Some(id) else None
  }

  /** Among the revisions of an identity, if any, one is the newest. */
  lemma {:induction false} NewestExists(db: Db, id: ID, config: ConfigHash, state: StateHash)
    requires forall other :: other in db.revisions ==> db.revisions[other].number < db.next
    requires id in db.revisions && Matching(db.revisions[id], config, state)
    ensures Find(db, config, state).Some?
    decreases db.next - db.revisions[id].number
  {
    hide Matching;
    if !Newest(db, id, config, state) {
      var other :| other in db.revisions && Matching(db.revisions[other], config, state)
                   && db.revisions[other].number > db.revisions[id].number;
      NewestExists(db, other, config, state);
    }
  }

  /** The state can be compiled, validated, marshalled and hashed. */
  ghost predicate Ready(db: Db, o: ApplyOracle) {
    o.readable && Valid(Load(db.tables)) && Compilable(Load(db.tables)) && o.environment.Success? && o.invalid.None?
  }

  datatype Recording = NotRecorded | Recorded(db: Db, id: ID, created: bool)

  /** The revision of x becomes the desired one, and is created first if there is none with its identity. */
  ghost function Record(db: Db, x: State, o: ApplyOracle): Recording
    requires Valid(x) && Compilable(x)
  {
    var found := Find(db, Compiled(x).sha256, Sha256(IdentityOf(x)));
    if !o.finds then NotRecorded
    else if found.Some? then
      if !o.activeReads || o.stamp == 0 || !o.records then NotRecorded
      else Recorded(db.(desired := found, dirty := false), found.value, false)
    else if o.id.Failure? || o.created == 0 || !o.activeReads || o.stamp == 0 || !o.records then NotRecorded
    else if !Creatable(db, o.id.value, NewRevision(x, o.created)) then NotRecorded
    else Recorded(Created(db, o.id.value, NewRevision(x, o.created)), o.id.value, true)
  }

  /** A failure is noted on a revision this apply created. */
  function Noted(db: Db, id: ID, created: bool, code: ErrorCode, o: ApplyOracle): Db {
    if created && o.marksFailed && Usable(db, id) then MadeFailed(db, id, code) else db
  }

  function MarkedActive(w: World, id: ID): (World, Result<Returned>)
    requires id in w.db.revisions
  {
    (w.(db := MadeActive(w.db, id)), Success(Returned(id, w.db.revisions[id].(status := Applied))))
  }

  /** The configuration is already running: only the database changes. */
  function MarkOnly(w: World, id: ID, created: bool, o: ApplyOracle): (World, Result<Returned>)
    requires id in w.db.revisions
  {
    if o.marks && Usable(w.db, id) then MarkedActive(w, id)
    else (w.(db := Noted(w.db, id, created, DatabaseFailed, o)), Failure)
  }

  function Undone(rt: Runtime, previous: Option<Config>, o: ApplyOracle): Runtime {
    if previous.Some? then Reloaded(rt, previous.value, o.undoReload).0 else StoppedBy(rt, o.undoStop).0
  }

  /** The configuration is activated, then the revision is marked. */
  function ActivateAndMark(w: World, id: ID, created: bool, config: Config, env: Environment, changed: bool,
                           previous: Option<Config>, o: ApplyOracle): (World, Result<Returned>)
    requires id in w.db.revisions
  {
    var (rt, failure) := Checked(w.rt, config, env, changed, previous, w.rt.environment, o.activation, o.healthAfter);
    if failure.Some? then (World(Noted(w.db, id, created, failure.value, o), rt), Failure)
    else if o.marks && Usable(w.db, id) then MarkedActive(w.(rt := rt), id)
    else (World(Noted(w.db, id, created, DatabaseFailed, o), Undone(rt, previous, o)), Failure)
  }

  /** From a recorded revision on. */
  function Finished(w: World, id: ID, created: bool, config: Config, hash: ConfigHash, env: Environment,
                    previous: Option<Revision>, o: ApplyOracle): (World, Result<Returned>)
    requires id in w.db.revisions
  {
    var (asked, changed) := EnvironmentChanged(w.rt, env);
    if previous.Some? && previous.value.configHash == hash then
      var (observed, state) := Observed(asked, o.health);
      if state.RuntimeRunning? && !changed then MarkOnly(w.(rt := observed), id, created, o)
      else ActivateAndMark(w.(rt := observed), id, created, config, env, changed, OptionalConfig(previous), o)
    else ActivateAndMark(w.(rt := asked), id, created, config, env, changed, OptionalConfig(previous), o)
  }

  /** apply. */
  ghost function Apply(w: World, o: ApplyOracle): (World, Result<Returned>) {
    var now := Landed(w.db, o.before);
    if !Ready(w.db, o) then (w.(db := now), Failure)
    else
      var x := Load(w.db.tables);
      match Record(now, x, o)
      case NotRecorded => (w.(db := now), Failure)
      case Recorded(db, id, created) =>
        Finished(World(Landed(db, o.after), w.rt), id, created, Compiled(x).json, Compiled(x).sha256,
                 o.environment.value, ActiveRevision(w.db), o)
  }

  // ----- start, restart, stop, delete -------------------------------------------------------------------------

  function Launched(rt: Runtime, config: Config, env: Environment, o: StartOracle): (Runtime, bool) {
    var (started, failure) := Started(rt, config, env, o.start);
    if failure.Some? then (started, false)
    else var (observed, state) := Observed(started, o.health); (observed, state.RuntimeRunning?)
  }

  /** Start, and Restart when stop is set: the active revision is started; without one, or when its snapshot
      cannot be read, the desired state is applied. */
  ghost function Start(w: World, o: StartOracle, stop: bool): (World, bool) {
    var active := ActiveRevision(w.db);
    if !o.activeReads then (w, false)
    else if active.None? || Parsed(active.value.body).Failure? then
      var (after, r) := Apply(w, o.apply); (after, r.Success?)
    else if o.environment.Failure? then (w, false)
    else if stop then
      var (stopped, failure) := StoppedBy(w.rt, o.stop);
      if failure.Some? then (w.(rt := stopped), false)
      else var (rt, ok) := Launched(stopped, active.value.json, o.environment.value, o); (w.(rt := rt), ok)
    else
      var (rt, ok) := Launched(w.rt, active.value.json, o.environment.value, o); (w.(rt := rt), ok)
  }

  function Stop(w: World, o: StopOutcome): (World, bool) {
    var (rt, failure) := StoppedBy(w.rt, o); (w.(rt := rt), failure.None?)
  }

  function Delete(w: World, id: ID, works: bool): (World, bool) {
    if works && Deletable(w.db, id) then (w.(db := w.db.(revisions := w.db.revisions - {id})), true) else (w, false)
  }

  // ----- restore -----------------------------------------------------------------------------------------------

  /** The stored snapshot parses, and compiles to what is stored beside it. */
  ghost predicate Verified(r: Revision) {
    && r.validation.ValidConfig? && r.body.Encoded? && Parsed(r.body).Success?
    && (var x := Parsed(r.body).value;
        Compilable(x) && Compiled(x).sha256 == r.configHash && Compiled(x).json == r.json)
  }

  /** Compensation after a failed write. */
  function PutBack(rt: Runtime, previous: Option<Config>, previousEnv: Environment, o: RestoreOracle): Runtime {
    if previous.None? then StoppedBy(rt, o.undoStop).0
    else
      var (observed, state) := Observed(rt, o.undoHealth);
      if !state.RuntimeRunning? then Reloaded(observed, previous.value, o.undoReload).0
      else
        var (asked, changed) := EnvironmentChanged(observed, previousEnv);
        if changed
        then Started(StoppedBy(asked, o.undoStop).0, previous.value, previousEnv, o.undoStart).0
        else Reloaded(asked, previous.value, o.undoReload).0
  }

  /** Restore. */
  ghost function Restore(w: World, id: ID, o: RestoreOracle): (World, Result<Returned>) {
    if !o.readable || id !in w.db.revisions || !Verified(w.db.revisions[id])
       || o.environment.Failure? || o.invalid.Some? || !o.activeReads
    then (w, Failure)
    else
      var r, env, previous := w.db.revisions[id], o.environment.value, OptionalConfig(ActiveRevision(w.db));
      var (asked, changed) := EnvironmentChanged(w.rt, env);
      var (rt, failure) := Checked(asked, r.json, env, changed, previous, w.rt.environment, o.activation, o.healthAfter);
      if failure.Some? || o.stamp == 0 then (w.(rt := rt), Failure)
      else
        var now, x := Landed(w.db, o.landed), Parsed(r.body).value;
        if o.writes && Restorable(now, id, x)
        then (World(Revisions.Restored(now, id, x), rt), Success(Returned(id, AppliedRevision(r))))
        else (World(now, PutBack(rt, previous, w.rt.environment, o)), Failure)
  }
}
