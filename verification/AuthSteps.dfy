/**
 The step-level machine of login, refresh and logout.

 Every request is a flow that advances one awaited operation at a time, so all
 interleavings of any number of requests are runs of this machine. Each
 autocommitted statement on one row is one atomic step; a rotation is a transaction
 whose two writes become visible together at its commit; and the UPDATE over all of
 a user's rows finds them at one step and takes effect at a later one, since it may
 wait for an open rotation's row lock in between. Any step that talks to the
 database may fail instead.

 `birth`, `minted`, `accessSigned`, `logins` and `done` are history: they record
 what happened and are never read by the program's own branches, except that
 `minted` and `accessSigned` decide which presented strings verify (only the
 server signs).
 */
module AuthSteps {
  import opened Prelude
  import opened Tokens
  import opened RefreshTokens

  type FlowId = nat

  /** Why a flow issues tokens: a login, or a refresh that read `parent` at step `readAt`. */
  datatype Origin = Login(user: User) | Rotation(parent: Uuid, readAt: nat)

  datatype Birth = Birth(at: nat, origin: Origin)

  datatype Reason = Reused | WrongHash

  datatype Flow =
    | Verified(token: RefreshJwt)
    | Killing(userId: Uuid, reason: Reason)
    | Revoking(userId: Uuid, reason: Reason, found: set<Uuid>, foundAt: nat)
    | Issuing(claims: Claims, origin: Origin)
    | HasAccess(claims: Claims, origin: Origin, access: AccessJwt)
    | HasRefresh(claims: Claims, origin: Origin, access: AccessJwt, refresh: RefreshJwt)
    | RowInserted(claims: Claims, origin: Origin, access: AccessJwt, refresh: RefreshJwt, row: Row)
    | RowReplaced(claims: Claims, origin: Origin, access: AccessJwt, refresh: RefreshJwt, row: Row, replacedAt: nat)
    | LoggingOut(jti: Uuid)
  {
    /** Past the point where tokens will be issued, and not yet finished. */
    predicate Committed() { Issuing? || HasAccess? || HoldsRefresh() }

    predicate HoldsRefresh() { HasRefresh? || RowInserted? || RowReplaced? }
  }

  datatype Outcome =
    | Granted(access: AccessJwt, refresh: RefreshJwt)
    | AlreadyUsed
    | HashMismatch
    | NoRecord
    | TokenRejected
    | DatabaseFailure
    | LoggedOut

  datatype State = State(
    now: nat,
    step: nat,
    rows: Table,
    flows: map<FlowId, Flow>,
    birth: map<Uuid, Birth>,
    minted: map<Uuid, RefreshJwt>,
    accessSigned: set<AccessJwt>,
    logins: set<User>,
    done: map<FlowId, Outcome>)

  datatype Event =
    | Tick(ms: nat)
    | StartLogin(f: FlowId, user: User)
    | StartRefresh(f: FlowId, token: Token)
    | StartLogout(f: FlowId, token: Token)
    | Read(f: FlowId)
    | FindAll(f: FlowId)
    | RevokeAll(f: FlowId)
    | SignAccess(f: FlowId)
    | SignRefresh(f: FlowId, jti: Uuid)
    | CreateRow(f: FlowId)
    | InsertRow(f: FlowId)
    | ReplaceRow(f: FlowId)
    | CommitRotation(f: FlowId)
    | RevokeOne(f: FlowId)
    | Fail(f: FlowId)

  const INIT := State(0, 0, map[], map[], map[], map[], {}, {}, map[])

  predicate Verifies(st: State, token: Token) {
    VerifiesRefresh(st.minted, st.now, token)
  }

  /** The verifier for access tokens. */
  predicate VerifiesAccess(st: State, token: Token) {
    && token.AccessToken?
    && token in st.accessSigned
    && Unexpired(token.exp, st.now)
  }

  predicate NewFlow(st: State, f: FlowId) {
    f !in st.flows && f !in st.done
  }

  predicate Enabled(st: State, e: Event) {
    match e
    case Tick(_) => true
    case StartLogin(f, _) => NewFlow(st, f)
    case StartRefresh(f, _) => NewFlow(st, f)
    case StartLogout(f, _) => NewFlow(st, f)
    case Read(f) => f in st.flows && st.flows[f].Verified?
    case FindAll(f) => f in st.flows && st.flows[f].Killing?
    case RevokeAll(f) => f in st.flows && st.flows[f].Revoking?
    case SignAccess(f) => f in st.flows && st.flows[f].Issuing?
    case SignRefresh(f, jti) => f in st.flows && st.flows[f].HasAccess? && jti !in st.minted
    case CreateRow(f) => f in st.flows && st.flows[f].HasRefresh? && st.flows[f].origin.Login?
    case InsertRow(f) => f in st.flows && st.flows[f].HasRefresh? && st.flows[f].origin.Rotation?
    case ReplaceRow(f) => f in st.flows && st.flows[f].RowInserted?
    case CommitRotation(f) => f in st.flows && st.flows[f].RowReplaced? && st.flows[f].origin.Rotation?
    case RevokeOne(f) => f in st.flows && st.flows[f].LoggingOut?
    case Fail(f) => f in st.flows
  }

  // ---- What one step does -------------------------------------------------

  /** Where the moving flow goes. */
  datatype Move = Continue(flow: Flow) | Finish(outcome: Outcome)

  /** What is written to the table. */
  datatype Write =
    | NoWrite
    | Insert(row: Row, origin: Origin)
    | Rotate(row: Row, origin: Origin, at: nat)
    | RevokeFound(found: set<Uuid>)
    | RevokeRow(id: Uuid)

  /** What the server signs. */
  datatype Signature = NoSignature | SignedAccess(access: AccessJwt) | SignedRefresh(refresh: RefreshJwt)

  datatype Effect = Effect(move: Move, write: Write, signature: Signature)

  function Just(move: Move): Effect {
    Effect(move, NoWrite, NoSignature)
  }

  /** `findById` and the three checks after it. */
  function AfterRead(st: State, token: RefreshJwt): Move {
    if token.jti !in st.rows then
      Finish(NoRecord)
    else
      var record := st.rows[token.jti];
      if !record.Active() then
        Continue(Killing(record.userId, Reused))
      else if record.tokenHash != Sha256(token) then
        Continue(Killing(record.userId, WrongHash))
      else
        Continue(Issuing(token.claims, Rotation(record.id, st.step)))
  }

  /** A database failure ends the request; logout swallows it. */
  function FailureOf(flow: Flow): Outcome {
    if flow.LoggingOut? then LoggedOut else DatabaseFailure
  }

  function EffectOf(cfg: Config, st: State, e: Event): Effect
    requires Enabled(st, e) && !e.Tick?
  {
    match e
    case StartLogin(_, user) => Just(Continue(Issuing(ClaimsOf(user), Login(user))))
    case StartRefresh(_, token) =>
      Just(if Verifies(st, token) then Continue(Verified(token)) else Finish(TokenRejected))
    case StartLogout(_, token) =>
      Just(if Verifies(st, token) then Continue(LoggingOut(token.jti)) else Finish(LoggedOut))
    case Read(f) => Just(AfterRead(st, st.flows[f].token))
    case FindAll(f) =>
      var Killing(userId, reason) := st.flows[f];
      Just(Continue(Revoking(userId, reason, ActiveRows(st.rows, userId), st.step)))
    case RevokeAll(f) =>
      var Revoking(_, reason, found, _) := st.flows[f];
      Effect(Finish(if reason.Reused? then AlreadyUsed else HashMismatch), RevokeFound(found), NoSignature)
    case SignAccess(f) =>
      var Issuing(claims, origin) := st.flows[f];
      var access := AccessToken(claims, ExpOf(st.now, cfg.accessSpan));
      Effect(Continue(HasAccess(claims, origin, access)), NoWrite, SignedAccess(access))
    case SignRefresh(f, jti) =>
      var HasAccess(claims, origin, access) := st.flows[f];
      var refresh := RefreshToken(claims, jti, ExpOf(st.now, cfg.refreshSpan));
      Effect(Continue(HasRefresh(claims, origin, access, refresh)), NoWrite, SignedRefresh(refresh))
    case CreateRow(f) =>
      var HasRefresh(_, origin, access, refresh) := st.flows[f];
      Effect(Finish(Granted(access, refresh)), Insert(RowFor(refresh, st.now, cfg.rowLifetime), origin), NoSignature)
    case InsertRow(f) =>
      var HasRefresh(claims, origin, access, refresh) := st.flows[f];
      Just(Continue(RowInserted(claims, origin, access, refresh, RowFor(refresh, st.now, cfg.rowLifetime))))
    case ReplaceRow(f) =>
      var RowInserted(claims, origin, access, refresh, row) := st.flows[f];
      Just(Continue(RowReplaced(claims, origin, access, refresh, row, st.now)))
    case CommitRotation(f) =>
      var RowReplaced(_, origin, access, refresh, row, at) := st.flows[f];
      Effect(Finish(Granted(access, refresh)), Rotate(row, origin, at), NoSignature)
    case RevokeOne(f) =>
      Effect(Finish(LoggedOut), RevokeRow(st.flows[f].jti), NoSignature)
    case Fail(f) =>
      Just(Finish(FailureOf(st.flows[f])))
  }

  function RowsAfter(rows: Table, w: Write, now: nat): Table {
    match w
    case NoWrite => rows
    case Insert(row, _) => Inserted(rows, row)
    case Rotate(row, origin, at) =>
      if origin.Rotation? then Rotated(rows, row, origin.parent, at) else Inserted(rows, row)
    case RevokeFound(found) => Stamped(rows, found, now)
    case RevokeRow(id) => Revoked(rows, id, now)
  }

  function BirthAfter(birth: map<Uuid, Birth>, w: Write, step: nat): map<Uuid, Birth> {
    if w.Insert? || w.Rotate? then birth[w.row.id := Birth(step, w.origin)] else birth
  }

  /** Carries out the effect of flow `f`; `who` are the users known to have logged in. */
  function Apply(st: State, f: FlowId, effect: Effect, who: set<User>): State {
    var Effect(move, write, signature) := effect;
    State(
      st.now,
      st.step + 1,
      RowsAfter(st.rows, write, st.now),
      if move.Continue? then st.flows[f := move.flow] else st.flows - {f},
      BirthAfter(st.birth, write, st.step),
      if signature.SignedRefresh? then st.minted[signature.refresh.jti := signature.refresh] else st.minted,
      if signature.SignedAccess? then st.accessSigned + {signature.access} else st.accessSigned,
      who,
      if move.Finish? then st.done[f := move.outcome] else st.done)
  }

  function LoginsAfter(st: State, e: Event): set<User> {
    if e.StartLogin? then st.logins + {e.user} else st.logins
  }

  function Next(cfg: Config, st: State, e: Event): State
    requires Enabled(st, e)
  {
    if e.Tick? then
      st.(now := st.now + e.ms, step := st.step + 1)
    else
      Apply(st, e.f, EffectOf(cfg, st, e), LoginsAfter(st, e))
  }
}
