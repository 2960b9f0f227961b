/**
 Tenant-scoped requests over a shared connection pool, step by step.

 Each repository call is one `TenantTransaction.run`: acquire a connection,
 BEGIN, `set_config` of the context's tenant, the work, COMMIT or ROLLBACK,
 release. Requests interleave between any two awaited operations and each
 database operation may fail.

 What the database and the drivers are trusted for:
 - `set_config(..., true)` and all writes of a transaction vanish at ROLLBACK, and
   the setting also at COMMIT; a COMMIT that reports failure was not applied;
 - statements read what is committed when they run;
 - inserting a key another open transaction has inserted waits for that transaction;
 - the driver marks a transaction active before sending BEGIN, and a connection
   whose ROLLBACK failed is discarded on release;
 - `gen_random_uuid()` never repeats.
 */
module TenantMachine {
  import opened Prelude
  import opened TenantTables

  type ConnId = nat

  datatype Kind =
    | Register(tenantId: Uuid, email: string, role: Role)
    | FindByEmail(email: string)
    | FindById(id: Uuid)
    | WriteNote(tenantId: Uuid, content: string)
    | ListNotes

  datatype Value =
    | UserFound(user: Option<UserRow>)
    | UserCreated(created: UserRow)
    | NoteCreated(note: NoteRow)
    | NotesListed(notes: seq<NoteRow>)

  datatype Error =
    | ConnectError | BeginError | SettingError | WorkError
    | UniqueViolation | PolicyViolation
    | CommitError | RollbackError
    | Conflict | NoTenantContext | Unauthorized

  datatype Outcome = Returned(value: Value) | Threw(error: Error)

  /** What one `run` did: history, written when it ends. */
  datatype RunLog = RunLog(connected: bool, committed: bool, raised: Option<Error>, rollbackFailed: bool,
      outcome: Outcome)

  datatype Phase =
    | Waiting
    | Connected(c: ConnId)
    | Begun(c: ConnId)
    | Scoped(c: ConnId)
    | Worked(c: ConnId, value: Value)
    | Unwinding(c: ConnId, error: Error)
    | Releasing(c: ConnId, log: RunLog)
    | Hashing
    | Finished(outcome: Outcome)
  {
    predicate Holds() { Connected? || Begun? || Scoped? || Worked? || Unwinding? || Releasing? }
  }

  /** `hash` is set once `register` has hashed the password: its second `run` is then due. */
  datatype Req = Req(kind: Kind, hash: Option<string>, phase: Phase, connects: nat, releases: nat, logs: seq<RunLog>)

  /** A physical connection; `user` and `note` are its transaction's uncommitted writes. */
  datatype Conn = Conn(txOpen: bool, setting: Setting, user: Option<UserRow>, note: Option<NoteRow>)

  const CLEAN := Conn(false, None, None, None)

  datatype Lease = Lease(holder: ReqId, conn: Conn)

  datatype State = State(
    size: nat,
    reqs: map<ReqId, Req>,
    held: map<ConnId, Lease>,
    idle: map<ConnId, Conn>,
    users: seq<UserRow>,
    notes: seq<NoteRow>,
    drawn: set<Uuid>)

  function Init(size: nat): State {
    State(size, map[], map[], map[], [], [], {})
  }

  datatype Action =
    | Arrive(kind: Kind)
    | Connect(c: ConnId) | ConnectFails
    | Begin | BeginFails(sent: bool, started: bool)
    | SetTenant | SetTenantFails
    | Work(id: Uuid, at: nat) | WorkFails
    | Commit | CommitFails
    | Rollback | RollbackFails
    | Release
    | Hashed(hash: string)

  datatype Event = Event(req: ReqId, act: Action)

  predicate IsFault(a: Action) {
    a.ConnectFails? || a.BeginFails? || a.SetTenantFails? || a.WorkFails? || a.CommitFails? || a.RollbackFails?
  }

  // ---- The work ------------------------------------------------------------------

  /** What the work of a run yields, before commit. */
  datatype Performed =
    | Done(value: Value, user: Option<UserRow>, note: Option<NoteRow>)
    | Fails(error: Error)

  /** The policy's check comes before the unique index. */
  function Perform(g: Guard, st: State, r: ReqId, req: Req, setting: Setting, id: Uuid, at: nat): Performed {
    match req.kind
    case FindByEmail(email) =>
      Done(UserFound(FirstByEmail(VisibleUsers(g, st.users, setting), email)), None, None)
    case FindById(uid) =>
      Done(UserFound(FirstById(VisibleUsers(g, st.users, setting), uid)), None, None)
    case ListNotes =>
      Done(NotesListed(NewestFirst(VisibleNotes(g, st.notes, setting))), None, None)
    case WriteNote(tenantId, content) =>
      if !Admits(g, tenantId, setting) then Fails(PolicyViolation)
      else
        var row := NoteRow(id, tenantId, content, at, r);
        Done(NoteCreated(row), None, Some(row))
    case Register(tenantId, email, role) =>
      if req.hash.None? then
        Done(UserFound(FirstByEmail(VisibleUsers(g, st.users, setting), email)), None, None)
      else if !Admits(g, tenantId, setting) then Fails(PolicyViolation)
      else if Taken(g, st.users, tenantId, email) then Fails(UniqueViolation)
      else
        var row := UserRow(id, tenantId, email, req.hash.value, role, at, r);
        Done(UserCreated(row), Some(row), None)
  }

  /** An insert that passes the policy meets an uncommitted insert of the same key and has to wait for it. */
  predicate WaitsForInsert(g: Guard, st: State, r: ReqId, req: Req, setting: Setting) {
    && req.kind.Register? && req.hash.Some?
    && Admits(g, req.kind.tenantId, setting)
    && exists c | c in st.held ::
         && st.held[c].holder != r && st.held[c].conn.user.Some?
         && SameKey(g, st.held[c].conn.user.value, req.kind.tenantId, req.kind.email)
  }

  // ---- What one step does ----------------------------------------------------------

  datatype ConnMove = Keep | Take(c: ConnId) | Update(c: ConnId, conn: Conn) | Return(c: ConnId, discard: bool)

  datatype Effect = Effect(req: Req, conn: ConnMove, user: Option<UserRow>, note: Option<NoteRow>, id: Option<Uuid>)

  predicate Holding(st: State, r: ReqId) {
    && r in st.reqs && st.reqs[r].phase.Holds()
    && st.reqs[r].phase.c in st.held && st.held[st.reqs[r].phase.c].holder == r
  }

  /**
   That a request past `connect` holds its connection is always so (PoolTheorems.PoolInv); asking it
   keeps `EffectOf` total.
   */
  predicate Enabled(g: Guard, st: State, e: Event) {
    var r := e.req;
    if e.act.Arrive? then r !in st.reqs
    else
      && r in st.reqs
      && (st.reqs[r].phase.Holds() ==> Holding(st, r))
      && match e.act
         case Connect(c) => st.reqs[r].phase.Waiting? && c < st.size && c !in st.held
         case ConnectFails => st.reqs[r].phase.Waiting?
         case Begin => st.reqs[r].phase.Connected?
         case BeginFails(sent, started) => st.reqs[r].phase.Connected? && (started ==> sent)
         case SetTenant => st.reqs[r].phase.Begun?
         case SetTenantFails => st.reqs[r].phase.Begun?
         case Work(id, _) =>
           && st.reqs[r].phase.Scoped? && id !in st.drawn
           && !WaitsForInsert(g, st, r, st.reqs[r], st.held[st.reqs[r].phase.c].conn.setting)
         case WorkFails => st.reqs[r].phase.Scoped?
         case Commit => st.reqs[r].phase.Worked?
         case CommitFails => st.reqs[r].phase.Worked?
         case Rollback => st.reqs[r].phase.Unwinding?
         case RollbackFails => st.reqs[r].phase.Unwinding?
         case Release => st.reqs[r].phase.Releasing?
         case Hashed(_) => st.reqs[r].phase.Hashing?
         case Arrive(_) => false
  }

  function Goes(req: Req, phase: Phase): Effect {
    Effect(req.(phase := phase), Keep, None, None, None)
  }

  /** What the use case does with the result of a `run`. */
  function AfterRun(req: Req, outcome: Outcome): Phase {
    if req.kind.Register? && req.hash.None? then
      match outcome
      case Returned(UserFound(None)) => Hashing
      case Returned(UserFound(Some(_))) => Finished(Threw(Conflict))
      case other => Finished(other)
    else if req.kind.Register? && outcome == Threw(UniqueViolation) then Finished(Threw(Conflict))
    else Finished(outcome)
  }

  function EndRun(req: Req, log: RunLog): Req {
    req.(phase := AfterRun(req, log.outcome), logs := req.logs + [log])
  }

  function EffectOf(g: Guard, st: State, e: Event): Effect
    requires Enabled(g, st, e)
  {
    var r := e.req;
    if e.act.Arrive? then
      Effect(Req(e.act.kind, None, Waiting, 0, 0, []), Keep, None, None, None)
    else
      var req := st.reqs[r];
      match e.act
      case Connect(c) =>
        Effect(req.(phase := Connected(c), connects := req.connects + 1), Take(c), None, None, None)
      case ConnectFails =>
        Effect(EndRun(req, RunLog(false, false, None, false, Threw(ConnectError))), Keep, None, None, None)
      case Begin =>
        var c := req.phase.c;
        Goes(req, Begun(c)).(conn := Update(c, st.held[c].conn.(txOpen := true)))
      case BeginFails(sent, started) =>
        var c := req.phase.c;
        if sent then
          Goes(req, Unwinding(c, BeginError)).(conn := Update(c, st.held[c].conn.(txOpen := started)))
        else
          Goes(req, Releasing(c, RunLog(true, false, Some(BeginError), false, Threw(BeginError))))
      case SetTenant =>
        var c := req.phase.c;
        Goes(req, Scoped(c)).(conn := Update(c, st.held[c].conn.(setting := Some(r.tenant))))
      case SetTenantFails =>
        Goes(req, Unwinding(req.phase.c, SettingError))
      case Work(id, at) =>
        var c := req.phase.c;
        (match Perform(g, st, r, req, st.held[c].conn.setting, id, at)
         case Fails(error) => Goes(req, Unwinding(c, error))
         case Done(value, user, note) =>
           Goes(req, Worked(c, value))
           .(conn := Update(c, st.held[c].conn.(user := user, note := note)),
             id := if user.Some? || note.Some? then Some(id) else None))
      case WorkFails =>
        Goes(req, Unwinding(req.phase.c, WorkError))
      case Commit =>
        var c := req.phase.c;
        Goes(req, Releasing(c, RunLog(true, true, None, false, Returned(req.phase.value))))
        .(conn := Update(c, CLEAN), user := st.held[c].conn.user, note := st.held[c].conn.note)
      case CommitFails =>
        Goes(req, Unwinding(req.phase.c, CommitError))
      case Rollback =>
        var Unwinding(c, error) := req.phase;
        Goes(req, Releasing(c, RunLog(true, false, Some(error), false, Threw(error))))
        .(conn := Update(c, CLEAN))
      case RollbackFails =>
        var Unwinding(c, error) := req.phase;
        Goes(req, Releasing(c, RunLog(true, false, Some(error), true, Threw(RollbackError))))
      case Release =>
        var Releasing(c, log) := req.phase;
        Effect(EndRun(req, log).(releases := req.releases + 1), Return(c, log.rollbackFailed), None, None, None)
      case Hashed(hash) =>
        Effect(req.(hash := Some(hash), phase := Waiting), Keep, None, None, None)
  }

  /** A connection taken from the pool: an idle one, or a new one while the pool has room. */
  function Drawn(st: State, c: ConnId): Conn {
    if c in st.idle then st.idle[c] else CLEAN
  }

  function HeldAfter(st: State, r: ReqId, move: ConnMove): map<ConnId, Lease> {
    match move
    case Keep => st.held
    case Take(c) => st.held[c := Lease(r, Drawn(st, c))]
    case Update(c, conn) => st.held[c := Lease(r, conn)]
    case Return(c, _) => st.held - {c}
  }

  function IdleAfter(st: State, move: ConnMove): map<ConnId, Conn> {
    match move
    case Take(c) => st.idle - {c}
    case Return(c, discard) => if discard || c !in st.held then st.idle - {c} else st.idle[c := st.held[c].conn]
    case _ => st.idle
  }

  function Apply(st: State, r: ReqId, f: Effect): State {
    State(
      st.size,
      st.reqs[r := f.req],
      HeldAfter(st, r, f.conn),
      IdleAfter(st, f.conn),
      if f.user.Some? then st.users + [f.user.value] else st.users,
      if f.note.Some? then st.notes + [f.note.value] else st.notes,
      if f.id.Some? then st.drawn + {f.id.value} else st.drawn)
  }

  function Next(g: Guard, st: State, e: Event): State
    requires Enabled(g, st, e)
  {
    Apply(st, e.req, EffectOf(g, st, e))
  }

  ghost predicate Valid(g: Guard, st: State, evs: seq<Event>)
    decreases |evs|
  {
    evs == [] || (Enabled(g, st, evs[0]) && Valid(g, Next(g, st, evs[0]), evs[1..]))
  }

  ghost function Run(g: Guard, st: State, evs: seq<Event>): State
    requires Valid(g, st, evs)
    decreases |evs|
  {
    if evs == [] then st else Run(g, Next(g, st, evs[0]), evs[1..])
  }
}
