/** The database: the state tables, the stored revisions and the runtime-state row. */
module Database {
  import opened Ordering
  import opened Domain
  import opened Snapshot
  import opened Identity
  import opened CaddyConfig
  import opened CaddyRuntime
  import opened CompilerSpec
  import opened Tables

  datatype ValidationStatus = PendingValidation | ValidConfig | InvalidConfig
  datatype ApplyStatus = NotApplied | Applied | ApplyFailed

  /** A config_revisions row with a state snapshot and a state hash. */
  datatype Revision = Revision(
    number: nat, createdAt: Timestamp, json: Config, body: Body, configHash: ConfigHash, stateHash: StateHash,
    validation: ValidationStatus, status: ApplyStatus, error: Option<ErrorCode>)

  datatype Db = Db(
    tables: Tables, revisions: map<ID, Revision>, desired: Option<ID>, active: Option<ID>, dirty: bool, next: nat)

  class Database {
    var tables: Tables
    var revisions: map<ID, Revision>
    var desired: Option<ID>
    var active: Option<ID>
    var dirty: bool
    var next: nat

    constructor (t: Tables)
      ensures View() == Db(t, map[], None, None, true, 1)
    {
      tables, revisions, desired, active, dirty, next := t, map[], None, None, true, 1;
    }

    function View(): Db
      reads this
    {
      Db(tables, revisions, desired, active, dirty, next)
    }
  }
}
