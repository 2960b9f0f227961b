/**
 `TenantTransaction.run` and the repositories as the program runs them: one
 request at a time drives a query runner through try/catch/finally. Failures are
 inputs. The meaning of the work is `TenantMachine.Perform`.
 */
module TenantTransactions {
  import opened Prelude
  import opened TenantTables
  import opened TenantMachine

  /**
   What a callback run in a context does with it: asks for the tenant, or runs another
   callback in a context of its own, and goes on.
   */
  datatype Callback = Return | Require(rest: Callback) | Within(tenantId: Uuid, inner: Callback, rest: Callback)

  /** The tenants a callback is told, each the innermost one around the question. */
  function Told(callback: Callback, tenantId: Uuid): seq<Uuid> {
    match callback
    case Return => []
    case Require(rest) => [tenantId] + Told(rest, tenantId)
    case Within(inner, body, rest) => Told(body, inner) + Told(rest, tenantId)
  }

  /** The per-request context: which tenant the running request works for. */
  class TenantContextStorage {
    var current: Option<Uuid>

    constructor ()
      ensures current == None
    {
      current := None;
    }

    /** Entering a context remembers the surrounding one, so that leaving restores it. */
    method Enter(tenantId: Uuid) returns (outer: Option<Uuid>)
      modifies this
      ensures current == Some(tenantId) && outer == old(current)
    {
      outer := current;
      current := Some(tenantId);
    }

    method Leave(outer: Option<Uuid>)
      modifies this
      ensures current == outer
    {
      current := outer;
    }

    /** Nothing stands for the source's error: no context is active. */
    method RequireStore() returns (tenantId: Option<Uuid>)
      ensures tenantId == current
    {
      tenantId := current;
    }

    /**
     The callback is told its own tenant wherever it asks outside inner contexts, and
     theirs inside; the surrounding context, active or not, is untouched afterwards.
     */
    method Run(tenantId: Uuid, callback: Callback) returns (told: seq<Uuid>)
      modifies this
      ensures told == Told(callback, tenantId) && current == old(current)
      decreases callback, 1
    {
      var outer := Enter(tenantId);
      told := Perform(callback);
      Leave(outer);
    }

    method Perform(callback: Callback) returns (told: seq<Uuid>)
      requires current.Some?
      modifies this
      ensures current == old(current) && told == Told(callback, current.value)
      decreases callback, 0
    {
      told := [];
      match callback
      case Return =>
      case Require(rest) =>
        var tenantId := RequireStore();
        var later := Perform(rest);
        told := [tenantId.value] + later;
      case Within(tenantId, inner, rest) =>
        var first := Run(tenantId, inner);
        var later := Perform(rest);
        told := first + later;
    }
  }

  /** Which database operations fail, should they be reached. */
  datatype Faults = Faults(connect: bool, begin: bool, beginSent: bool, setting: bool, work: bool, commit: bool,
      rollback: bool)

  const NO_FAULTS := Faults(false, false, false, false, false, false, false)

  /** The tables and the pool. `leased` counts connections out of the pool, `releases` every release. */
  class Database {
    const size: nat
    var users: seq<UserRow>
    var notes: seq<NoteRow>
    var idle: seq<Conn>
    var leased: nat
    var connects: nat
    var releases: nat

    constructor (size: nat)
      ensures this.size == size && users == [] && notes == [] && Healthy() && leased == 0
    {
      this.size := size;
      users, notes, idle, leased, connects, releases := [], [], [], 0, 0, 0;
    }

    /** The pool is not exceeded and idle connections carry neither transaction nor tenant. */
    ghost predicate Healthy()
      reads this
    {
      && leased + |idle| <= size
      && connects == releases + leased
      && forall k | 0 <= k < |idle| :: idle[k] == CLEAN
    }

    /** The tables as a machine state, for `Perform`. */
    ghost function Tables(): State
      reads this
    {
      State(size, map[], map[], map[], users, notes, {})
    }
  }

  /** One run's connection and the driver's flag about it. */
  class QueryRunner {
    const db: Database
    var conn: Conn
    var isTransactionActive: bool
    var broken: bool

    constructor (db: Database)
      ensures this.db == db && conn == CLEAN && !isTransactionActive && !broken
    {
      this.db, conn, isTransactionActive, broken := db, CLEAN, false, false;
    }

    method Connect(fails: bool) returns (ok: bool)
      requires db.Healthy() && db.leased < db.size
      modifies this, db
      ensures ok <==> !fails
      ensures ok ==> conn == CLEAN && db.leased == old(db.leased) + 1 && db.connects == old(db.connects) + 1
      ensures !ok ==> conn == old(conn) && db.leased == old(db.leased)
      ensures !ok ==> db.connects == old(db.connects) && db.idle == old(db.idle)
      ensures db.Healthy() && db.users == old(db.users) && db.notes == old(db.notes) && db.releases == old(db.releases)
      ensures isTransactionActive == old(isTransactionActive) && broken == old(broken)
    {
      if fails {
        return false;
      }
      if db.idle != [] {
        conn := db.idle[0];
        db.idle := db.idle[1..];
      } else {
        conn := CLEAN;
      }
      db.leased := db.leased + 1;
      db.connects := db.connects + 1;
      ok := true;
    }

    method StartTransaction(fails: bool, sent: bool) returns (ok: bool)
      requires conn == CLEAN && !isTransactionActive
      modifies this
      ensures ok <==> !fails
      ensures ok ==> conn == CLEAN.(txOpen := true)
      ensures isTransactionActive == (ok || sent) && broken == old(broken)
      ensures !ok && !sent ==> conn == CLEAN
    {
      if fails && !sent {
        return false;
      }
      isTransactionActive := true;
      if fails {
        return false;
      }
      conn := conn.(txOpen := true);
      ok := true;
    }

    method SetConfig(tenantId: Uuid, fails: bool) returns (ok: bool)
      requires conn == CLEAN.(txOpen := true)
      modifies this
      ensures ok <==> !fails
      ensures ok ==> conn == Conn(true, Some(tenantId), None, None)
      ensures isTransactionActive == old(isTransactionActive) && broken == old(broken)
    {
      if fails {
        return false;
      }
      conn := conn.(setting := Some(tenantId));
      ok := true;
    }

    method CommitTransaction(fails: bool) returns (ok: bool)
      modifies this, db
      ensures ok <==> !fails
      ensures ok ==>
        && conn == CLEAN && !isTransactionActive
        && db.users == old(db.users) + (if old(conn).user.Some? then [old(conn).user.value] else [])
        && db.notes == old(db.notes) + (if old(conn).note.Some? then [old(conn).note.value] else [])
      ensures !ok ==> db.users == old(db.users) && db.notes == old(db.notes)
      ensures !ok ==> isTransactionActive == old(isTransactionActive)
      ensures db.idle == old(db.idle) && db.leased == old(db.leased) && db.connects == old(db.connects)
      ensures db.releases == old(db.releases) && broken == old(broken)
    {
      if fails {
        return false;
      }
      if conn.user.Some? {
        db.users := db.users + [conn.user.value];
      }
      if conn.note.Some? {
        db.notes := db.notes + [conn.note.value];
      }
      conn, isTransactionActive := CLEAN, false;
      ok := true;
    }

    method RollbackTransaction(fails: bool) returns (ok: bool)
      modifies this
      ensures ok <==> !fails
      ensures ok ==> conn == CLEAN && !isTransactionActive && broken == old(broken)
      ensures !ok ==> broken
    {
      if fails {
        broken := true;
        return false;
      }
      conn, isTransactionActive := CLEAN, false;
      ok := true;
    }

    /** Back to the pool, or discarded when the rollback failed. */
    method Release()
      requires db.leased > 0 && db.Healthy() && (conn == CLEAN || broken)
      modifies this, db
      ensures db.Healthy() && db.leased == old(db.leased) - 1 && db.releases == old(db.releases) + 1
      ensures db.users == old(db.users) && db.notes == old(db.notes) && db.connects == old(db.connects)
    {
      db.leased := db.leased - 1;
      db.releases := db.releases + 1;
      if !broken {
        db.idle := db.idle + [conn];
      }
    }
  }

  /** The error a run meets first: its own failures in order, then the work's. */
  function FirstError(faults: Faults, performed: Performed): Option<Error> {
    if faults.begin then Some(BeginError)
    else if faults.setting then Some(SettingError)
    else if faults.work then Some(WorkError)
    else if performed.Fails? then Some(performed.error)
    else if faults.commit then Some(CommitError)
    else None
  }

  /** Whether the catch block finds the driver's flag set and so rolls back. */
  predicate RollsBack(faults: Faults, performed: Performed) {
    FirstError(faults, performed).Some? && (faults.begin ==> faults.beginSent)
  }

  /** What one run returns or throws. */
  function RunOutcome(context: Option<Uuid>, faults: Faults, performed: Performed): Outcome {
    if context.None? then Threw(NoTenantContext)
    else if faults.connect then Threw(ConnectError)
    else
      match FirstError(faults, performed)
      case None => Returned(performed.value)
      case Some(error) => Threw(if RollsBack(faults, performed) && faults.rollback then RollbackError else error)
  }

  /** Which errors may have come before an error that a run throws. */
  function Order(error: Error): nat {
    match error
    case BeginError => 1
    case SettingError => 2
    case WorkError => 3
    case CommitError => 5
    case _ => 4
  }

  /** Whether this step of the run goes wrong. */
  predicate Fault(faults: Faults, performed: Performed, step: nat) {
    || (step == 1 && faults.begin) || (step == 2 && faults.setting) || (step == 3 && faults.work)
    || (step == 4 && performed.Fails?) || (step == 5 && faults.commit)
  }

  /**
   What a run's outcome means. It returns the work's value if and only if it had a
   context and a connection and no step went wrong. Otherwise it throws the error of the
   first step that did, unless the driver had a transaction to roll back and that failed.
   */
  lemma RunOutcomeMeaning(context: Option<Uuid>, faults: Faults, performed: Performed)
    requires performed.Fails? ==> performed.error in {PolicyViolation, UniqueViolation}
    ensures var outcome := RunOutcome(context, faults, performed);
      && (outcome.Returned? <==>
            context.Some? && !faults.connect && forall step | 1 <= step <= 5 :: !Fault(faults, performed, step))
      && (outcome.Returned? ==> performed.Done? && outcome.value == performed.value)
      && (outcome == Threw(NoTenantContext) <==> context.None?)
      && (outcome == Threw(ConnectError) <==> context.Some? && faults.connect)
      && (outcome == Threw(RollbackError) ==> faults.rollback && (faults.begin ==> faults.beginSent))
      && (outcome.Threw? && context.Some? && !faults.connect && outcome.error != RollbackError ==>
            && Fault(faults, performed, Order(outcome.error))
            && (performed.Fails? && Order(outcome.error) == 4 ==> outcome.error == performed.error)
            && (forall step | 1 <= step < Order(outcome.error) :: !Fault(faults, performed, step))
            && (faults.rollback ==> faults.begin && !faults.beginSent))
  {
    assert !Fault(faults, performed, 1) <==> !faults.begin;
    assert !Fault(faults, performed, 2) <==> !faults.setting;
    assert !Fault(faults, performed, 3) <==> !faults.work;
    assert !Fault(faults, performed, 4) <==> performed.Done?;
    assert !Fault(faults, performed, 5) <==> !faults.commit;
  }

  class TenantTransaction {
    const db: Database
    const storage: TenantContextStorage

    constructor (db: Database, storage: TenantContextStorage)
      ensures this.db == db && this.storage == storage
    {
      this.db, this.storage := db, storage;
    }

    /** What the work would do in the running context. */
    ghost function Performs(r: ReqId, req: Req, id: Uuid, at: nat): Performed
      reads db, storage
    {
      Perform(Rls, db.Tables(), r, req, storage.current, id, at)
    }

    method Work(runner: QueryRunner, r: ReqId, req: Req, id: Uuid, at: nat) returns (p: Performed)
      requires runner.db == db
      modifies runner
      ensures p == Perform(Rls, db.Tables(), r, req, old(runner.conn).setting, id, at)
      ensures p.Done? ==> runner.conn == old(runner.conn).(user := p.user, note := p.note)
      ensures runner.isTransactionActive == old(runner.isTransactionActive) && runner.broken == old(runner.broken)
    {
      p := Perform(Rls, State(db.size, map[], map[], map[], db.users, db.notes, {}), r, req, runner.conn.setting,
          id, at);
      if p.Done? {
        runner.conn := runner.conn.(user := p.user, note := p.note);
      }
    }

    /**
     One unit of work. It releases exactly once if and only if it connected; it
     returns the work's value if and only if its commit succeeded, and only then is
     anything written; otherwise it throws what went wrong first, or the rollback's
     own failure; and it leaves the pool healthy whatever fails.
     */
    method Run(r: ReqId, req: Req, id: Uuid, at: nat, faults: Faults) returns (outcome: Outcome)
      requires db.Healthy() && db.leased < db.size
      modifies db
      ensures outcome == RunOutcome(storage.current, faults, old(Performs(r, req, id, at)))
      ensures db.Healthy() && db.leased == old(db.leased)
      ensures db.connects - old(db.connects) == db.releases - old(db.releases)
           == if storage.current.Some? && !faults.connect then 1 else 0
      ensures outcome.Returned? ==>
        var p := old(Performs(r, req, id, at));
        && db.users == old(db.users) + (if p.user.Some? then [p.user.value] else [])
        && db.notes == old(db.notes) + (if p.note.Some? then [p.note.value] else [])
      ensures outcome.Threw? ==> db.users == old(db.users) && db.notes == old(db.notes)
    {
      var tenantId := storage.RequireStore();
      if tenantId.None? {
        return Threw(NoTenantContext);
      }
      var runner := new QueryRunner(db);
      var connected := runner.Connect(faults.connect);
      if !connected {
        return Threw(ConnectError);
      }
      outcome := Try(runner, tenantId.value, r, req, id, at, faults);
      if outcome.Threw? && runner.isTransactionActive {
        var rolledBack := runner.RollbackTransaction(faults.rollback);
        if !rolledBack {
          outcome := Threw(RollbackError);
        }
      }
      runner.Release();
    }

    /** The body of the try block. */
    method Try(runner: QueryRunner, tenantId: Uuid, r: ReqId, req: Req, id: Uuid, at: nat, faults: Faults)
      returns (outcome: Outcome)
      requires runner.db == db && storage.current == Some(tenantId)
      requires runner.conn == CLEAN && !runner.isTransactionActive && !runner.broken
      modifies runner, db
      ensures var p := old(Performs(r, req, id, at));
        && outcome == (match FirstError(faults, p) case None => Returned(p.value) case Some(error) => Threw(error))
        && (outcome.Returned? ==>
              && db.users == old(db.users) + (if p.user.Some? then [p.user.value] else [])
              && db.notes == old(db.notes) + (if p.note.Some? then [p.note.value] else []))
        && (outcome.Threw? ==> runner.isTransactionActive == RollsBack(faults, p))
      ensures outcome.Returned? || !runner.isTransactionActive ==> runner.conn == CLEAN
      ensures outcome.Threw? ==> db.users == old(db.users) && db.notes == old(db.notes)
      ensures db.idle == old(db.idle) && db.leased == old(db.leased) && db.connects == old(db.connects)
      ensures db.releases == old(db.releases) && !runner.broken
    {
      var ok := runner.StartTransaction(faults.begin, faults.beginSent);
      if !ok {
        return Threw(BeginError);
      }
      ok := runner.SetConfig(tenantId, faults.setting);
      if !ok {
        return Threw(SettingError);
      }
      if faults.work {
        return Threw(WorkError);
      }
      var p := Work(runner, r, req, id, at);
      if p.Fails? {
        return Threw(p.error);
      }
      ok := runner.CommitTransaction(faults.commit);
      if !ok {
        return Threw(CommitError);
      }
      outcome := Returned(p.value);
    }
  }
}
