/**
 Where notes come from: token issuing and the tenant database joined. A note can
 only be posted with a verified access token, a login needs a user row found in
 the tenant's context, and everything else of both machines runs freely in
 between, including role changes made by an operator behind the application's back.
 */
module Provenance {
  import opened Prelude
  import opened Tokens
  import opened TenantTables
  import opened NoteRoutes
  import opened PoolTheorems
  import opened Isolation
  import Auth = AuthSteps
  import AuthInv = AuthInvariant
  import Db = TenantMachine

  /** A completed credential check: the row as found, and the tenant context it was found in. */
  datatype Session = Session(row: UserRow, context: Uuid)

  datatype System = System(
    auth: Auth.State,
    db: Db.State,
    tokens: map<ReqId, AccessJwt>,
    seen: set<UserRow>,
    sessions: set<Session>)

  datatype Event =
    | AuthStep(a: Auth.Event)
    | LogIn(f: Auth.FlowId, lookup: ReqId)
    | DbStep(d: Db.Event)
    | PostNote(r: ReqId, token: AccessJwt, content: string)
    | ChangeRole(id: Uuid, role: Role)

  function UserOf(row: UserRow): User {
    User(row.id, row.tenantId, row.role, row.email)
  }

  /** What a finished lookup found. */
  function Found(db: Db.State, lookup: ReqId): Option<UserRow> {
    if lookup in db.reqs && db.reqs[lookup].kind.FindByEmail? && db.reqs[lookup].phase.Finished?
       && db.reqs[lookup].phase.outcome.Returned? && db.reqs[lookup].phase.outcome.value.UserFound?
    then db.reqs[lookup].phase.outcome.value.user
    else None
  }

  function Posting(r: ReqId, token: AccessJwt, content: string): Db.Event {
    Db.Event(r, Db.Arrive(Db.WriteNote(token.claims.tenantId, content)))
  }

  predicate Enabled(s: System, e: Event) {
    match e
    case AuthStep(a) => Auth.Enabled(s.auth, a) && !a.StartLogin?
    case LogIn(f, lookup) => Found(s.db, lookup).Some? && Auth.NewFlow(s.auth, f)
    case DbStep(d) => Db.Enabled(Rls, s.db, d) && !(d.act.Arrive? && d.act.kind.WriteNote?)
    case PostNote(r, token, content) =>
      && Auth.VerifiesAccess(s.auth, token)
      && CanActivate(Some(WRITERS), Some(AuthUserOf(token.claims)))
      && r.tenant == token.claims.tenantId
      && Db.Enabled(Rls, s.db, Posting(r, token, content))
    case ChangeRole(_, _) => true
  }

  function WithRole(users: seq<UserRow>, id: Uuid, role: Role): seq<UserRow> {
    seq(|users|, k requires 0 <= k < |users| => if users[k].id == id then users[k].(role := role) else users[k])
  }

  /** Every version a user row ever had. */
  function SeenAfter(seen: set<UserRow>, users: seq<UserRow>): set<UserRow> {
    seen + (set u | u in users)
  }

  function Next(cfg: Config, s: System, e: Event): System
    requires Enabled(s, e)
  {
    match e
    case AuthStep(a) => s.(auth := Auth.Next(cfg, s.auth, a))
    case LogIn(f, lookup) =>
      var row := Found(s.db, lookup).value;
      s.(auth := Auth.Next(cfg, s.auth, Auth.StartLogin(f, UserOf(row))),
         sessions := s.sessions + {Session(row, lookup.tenant)})
    case DbStep(d) =>
      var db := Db.Next(Rls, s.db, d);
      s.(db := db, seen := SeenAfter(s.seen, db.users))
    case PostNote(r, token, content) =>
      s.(db := Db.Next(Rls, s.db, Posting(r, token, content)), tokens := s.tokens[r := token])
    case ChangeRole(id, role) =>
      var users := WithRole(s.db.users, id, role);
      s.(db := s.db.(users := users), seen := SeenAfter(s.seen, users))
  }

  ghost predicate Valid(cfg: Config, s: System, evs: seq<Event>)
    decreases |evs|
  {
    evs == [] || (Enabled(s, evs[0]) && Valid(cfg, Next(cfg, s, evs[0]), evs[1..]))
  }

  ghost function Run(cfg: Config, s: System, evs: seq<Event>): System
    requires Valid(cfg, s, evs)
    decreases |evs|
  {
    if evs == [] then s else Run(cfg, Next(cfg, s, evs[0]), evs[1..])
  }

  function Start(size: nat): System {
    System(Auth.INIT, Db.Init(size), map[], {}, {})
  }

  // ---- The invariant ---------------------------------------------------------------

  /** A row found in `r`'s context: one of that tenant's, as it stood at some moment. */
  ghost predicate FoundOk(seen: set<UserRow>, r: ReqId, outcome: Db.Outcome) {
    outcome.Returned? && outcome.value.UserFound? && outcome.value.user.Some? ==>
      outcome.value.user.value in seen && outcome.value.user.value.tenantId == r.tenant
  }

  ghost predicate NoteOutcomeOk(req: Db.Req, outcome: Db.Outcome) {
    req.kind.WriteNote? ==> outcome != Db.Threw(Db.PolicyViolation)
  }

  ghost predicate OutcomeOk(seen: set<UserRow>, r: ReqId, req: Db.Req, outcome: Db.Outcome) {
    FoundOk(seen, r, outcome) && NoteOutcomeOk(req, outcome)
  }

  ghost predicate PhaseOk(seen: set<UserRow>, r: ReqId, req: Db.Req) {
    match req.phase
    case Worked(_, value) =>
      && FoundOk(seen, r, Db.Returned(value))
      && (value.NoteCreated? ==> req.kind.WriteNote? && value.note.writer == r && value.note.tenantId == r.tenant)
    case Unwinding(_, error) => NoteOutcomeOk(req, Db.Threw(error))
    case Releasing(_, log) => OutcomeOk(seen, r, req, log.outcome)
    case Finished(outcome) => OutcomeOk(seen, r, req, outcome)
    case _ => true
  }

  /** A note request was let in by a verified writer's token of its own tenant. */
  ghost predicate LetIn(s: System, r: ReqId, tenantId: Uuid) {
    && r in s.tokens && s.tokens[r] in s.auth.accessSigned
    && s.tokens[r].claims.tenantId == r.tenant == tenantId
    && s.tokens[r].claims.role in {Admin, Member}
  }

  ghost predicate ReqOk(s: System, r: ReqId, req: Db.Req) {
    PhaseOk(s.seen, r, req) && (req.kind.WriteNote? ==> LetIn(s, r, req.kind.tenantId))
  }

  ghost predicate SessionFor(s: System, user: User) {
    exists x | x in s.sessions :: UserOf(x.row) == user
  }

  /** What every recorded login, row, request and note goes back to. */
  ghost predicate TraceInv(s: System) {
    && (forall u | u in s.auth.logins :: SessionFor(s, u))
    && (forall x | x in s.sessions :: x.row in s.seen && x.row.tenantId == x.context)
    && (forall u | u in s.db.users :: u in s.seen)
    && (forall r | r in s.db.reqs :: ReqOk(s, r, s.db.reqs[r]))
    && (forall n | n in s.db.notes :: LetIn(s, n.writer, n.tenantId))
    && s.tokens.Keys <= s.db.reqs.Keys
  }

  ghost predicate SysInv(cfg: Config, s: System) {
    AuthInv.Inv(cfg, s.auth) && FlatInv(s.db) && TraceInv(s)
  }

  // ---- Preservation -------------------------------------------------------------------

  /** The database part of a step. */
  lemma EffectOk(s: System, d: Db.Event)
    requires Ready(Rls, s.db, d)
    requires d.req in s.db.reqs ==> ReqOk(s, d.req, s.db.reqs[d.req])
    requires forall u | u in s.db.users :: u in s.seen
    requires d.act.Arrive? && d.act.kind.WriteNote? ==> LetIn(s, d.req, d.act.kind.tenantId)
    ensures var f := Db.EffectOf(Rls, s.db, d);
      && ReqOk(s, d.req, f.req)
      && (f.note.Some? ==> LetIn(s, f.note.value.writer, f.note.value.tenantId))
  {
    if d.act.Work? {
      UsersUnderMembers(s.db.users, Some(d.req.tenant));
    }
  }

  lemma PhaseOkMore(seen: set<UserRow>, seen': set<UserRow>, r: ReqId, req: Db.Req)
    requires PhaseOk(seen, r, req) && seen <= seen'
    ensures PhaseOk(seen', r, req)
  {
  }

  /** All a step of the join may do: keep tokens and signatures, add seen rows and sessions. */
  ghost predicate Extends(s: System, s': System) {
    && s.seen <= s'.seen && s.sessions <= s'.sessions
    && s.auth.accessSigned <= s'.auth.accessSigned
    && forall r | r in s.tokens :: r in s'.tokens && s'.tokens[r] == s.tokens[r]
  }

  lemma ReqOkMore(s: System, s': System, r: ReqId, req: Db.Req)
    requires ReqOk(s, r, req) && Extends(s, s')
    ensures ReqOk(s', r, req)
  {
    PhaseOkMore(s.seen, s'.seen, r, req);
  }

  lemma DbStepTrace(s: System, d: Db.Event, s': System)
    requires TraceInv(s) && Ready(Rls, s.db, d)
    requires d.act.Arrive? && d.act.kind.WriteNote? ==> LetIn(s', d.req, d.act.kind.tenantId)
    requires s'.db == Db.Next(Rls, s.db, d) && s'.auth == s.auth && s'.sessions == s.sessions
    requires Extends(s, s') && s'.tokens.Keys <= s.tokens.Keys + {d.req}
    requires forall u | u in s'.db.users :: u in s'.seen
    ensures TraceInv(s')
  {
    SessionsKept(s, s');
    forall r | r in s.db.reqs
      ensures ReqOk(s', r, s.db.reqs[r])
    {
      ReqOkMore(s, s', r, s.db.reqs[r]);
    }
    EffectOk(s'.(db := s.db), d);
    NotesKept(s, s', Db.EffectOf(Rls, s.db, d).note);
  }

  lemma DbStepInv(cfg: Config, s: System, d: Db.Event, s': System)
    requires SysInv(cfg, s) && Db.Enabled(Rls, s.db, d)
    requires d.act.Arrive? && d.act.kind.WriteNote? ==> LetIn(s', d.req, d.act.kind.tenantId)
    requires s'.db == Db.Next(Rls, s.db, d) && s'.auth == s.auth && s'.sessions == s.sessions
    requires Extends(s, s') && s'.tokens.Keys <= s.tokens.Keys + {d.req}
    requires forall u | u in s'.db.users :: u in s'.seen
    ensures SysInv(cfg, s')
  {
    NextFlat(Rls, s.db, d);
    EffectReady(Rls, s.db, d);
    DbStepTrace(s, d, s');
  }

  lemma SessionsKept(s: System, s': System)
    requires (forall u | u in s.auth.logins :: SessionFor(s, u)) && s.sessions <= s'.sessions
    ensures forall u | u in s.auth.logins :: SessionFor(s', u)
  {
    forall u | u in s.auth.logins
      ensures SessionFor(s', u)
    {
      assert SessionFor(s, u);
      var x :| x in s.sessions && UserOf(x.row) == u;
      assert x in s'.sessions;
    }
  }

  lemma NotesKept(s: System, s': System, note: Option<NoteRow>)
    requires forall n | n in s.db.notes :: LetIn(s, n.writer, n.tenantId)
    requires Extends(s, s') && (note.Some? ==> LetIn(s', note.value.writer, note.value.tenantId))
    requires s'.db.notes == if note.Some? then s.db.notes + [note.value] else s.db.notes
    ensures forall n | n in s'.db.notes :: LetIn(s', n.writer, n.tenantId)
  {
    forall n | n in s'.db.notes
      ensures LetIn(s', n.writer, n.tenantId)
    {
      if n in s.db.notes { assert LetIn(s, n.writer, n.tenantId); }
    }
  }

  /** Nothing but logins and signatures changed on the auth side. */
  lemma AuthStepTrace(s: System, s': System)
    requires TraceInv(s) && Extends(s, s')
    requires s' == s.(auth := s'.auth, sessions := s'.sessions)
    requires forall u | u in s'.auth.logins && u !in s.auth.logins :: SessionFor(s', u)
    requires forall x | x in s'.sessions :: x.row in s.seen && x.row.tenantId == x.context
    ensures TraceInv(s')
  {
    forall r | r in s.db.reqs
      ensures ReqOk(s', r, s.db.reqs[r])
    {
      ReqOkMore(s, s', r, s.db.reqs[r]);
    }
    SessionsKept(s, s');
    NotesKept(s, s', None);
  }

  lemma LoginsGrow(cfg: Config, st: Auth.State, a: Auth.Event)
    requires Auth.Enabled(st, a)
    ensures Auth.Next(cfg, st, a).logins == if a.StartLogin? then st.logins + {a.user} else st.logins
  {
  }

  lemma AuthStepInv(cfg: Config, s: System, a: Auth.Event, s': System)
    requires cfg.Valid() && SysInv(cfg, s) && Auth.Enabled(s.auth, a)
    requires s' == s.(auth := Auth.Next(cfg, s.auth, a), sessions := s'.sessions) && s.sessions <= s'.sessions
    requires a.StartLogin? ==> SessionFor(s', a.user)
    requires forall x | x in s'.sessions :: x.row in s.seen && x.row.tenantId == x.context
    ensures SysInv(cfg, s')
  {
    AuthInv.NextInv(cfg, s.auth, a);
    AuthInv.NextGrows(cfg, s.auth, a);
    LoginsGrow(cfg, s.auth, a);
    AuthStepTrace(s, s');
  }

  lemma UsersDoNotMatter(db: Db.State, users: seq<UserRow>)
    requires FlatInv(db)
    ensures FlatInv(db.(users := users))
  {
    var db' := db.(users := users);
    forall c | c in db'.held
      ensures LeaseOk(db', c)
    {
      assert LeaseOk(db, c);
    }
    forall r | r in db'.reqs && db'.reqs[r].phase.Holds()
      ensures Db.Holding(db', r)
    {
      assert Db.Holding(db, r);
    }
  }

  lemma ChangeRoleInv(cfg: Config, s: System, id: Uuid, role: Role)
    requires SysInv(cfg, s)
    ensures SysInv(cfg, Next(cfg, s, ChangeRole(id, role)))
  {
    var s' := Next(cfg, s, ChangeRole(id, role));
    UsersDoNotMatter(s.db, s'.db.users);
    forall r | r in s.db.reqs
      ensures ReqOk(s', r, s.db.reqs[r])
    {
      ReqOkMore(s, s', r, s.db.reqs[r]);
    }
    SessionsKept(s, s');
  }

  lemma LogInInv(cfg: Config, s: System, f: Auth.FlowId, lookup: ReqId)
    requires cfg.Valid() && SysInv(cfg, s) && Enabled(s, LogIn(f, lookup))
    ensures SysInv(cfg, Next(cfg, s, LogIn(f, lookup)))
  {
    var s', row := Next(cfg, s, LogIn(f, lookup)), Found(s.db, lookup).value;
    assert ReqOk(s, lookup, s.db.reqs[lookup]);
    assert Session(row, lookup.tenant) in s'.sessions;
    AuthStepInv(cfg, s, Auth.StartLogin(f, UserOf(row)), s');
  }

  lemma PostNoteInv(cfg: Config, s: System, r: ReqId, token: AccessJwt, content: string)
    requires SysInv(cfg, s) && Enabled(s, PostNote(r, token, content))
    ensures SysInv(cfg, Next(cfg, s, PostNote(r, token, content)))
  {
    assert r !in s.db.reqs;
    DbStepInv(cfg, s, Posting(r, token, content), Next(cfg, s, PostNote(r, token, content)));
  }

  lemma NextSys(cfg: Config, s: System, e: Event)
    requires cfg.Valid() && SysInv(cfg, s) && Enabled(s, e)
    ensures SysInv(cfg, Next(cfg, s, e))
  {
    match e
    case AuthStep(a) => AuthStepInv(cfg, s, a, Next(cfg, s, e));
    case LogIn(f, lookup) => LogInInv(cfg, s, f, lookup);
    case DbStep(d) => DbStepInv(cfg, s, d, Next(cfg, s, e));
    case PostNote(r, token, content) => PostNoteInv(cfg, s, r, token, content);
    case ChangeRole(id, role) => ChangeRoleInv(cfg, s, id, role);
  }

  lemma {:induction false} RunSys(cfg: Config, s: System, evs: seq<Event>)
    requires cfg.Valid() && SysInv(cfg, s) && Valid(cfg, s, evs)
    ensures SysInv(cfg, Run(cfg, s, evs))
    decreases |evs|
  {
    if evs == [] {
    } else {
      NextSys(cfg, s, evs[0]);
      RunSys(cfg, Next(cfg, s, evs[0]), evs[1..]);
    }
  }

  // ---- The theorem ----------------------------------------------------------------------

  /**
   In every reachable state each stored note was written by a request let in with a
   signed access token naming the note's tenant and role admin or member, and that
   token goes back to a login: a user row found in the same tenant's context, with
   the token's user, tenant, email and role as they stood when it was found.
   */
  lemma NoteProvenance(cfg: Config, size: nat, evs: seq<Event>, s: System, note: NoteRow) returns (login: Session)
    requires cfg.Valid() && Valid(cfg, Start(size), evs) && s == Run(cfg, Start(size), evs)
    requires note in s.db.notes
    ensures note.writer in s.tokens && note.writer.tenant == note.tenantId
    ensures var token := s.tokens[note.writer];
      && token in s.auth.accessSigned
      && token.claims.tenantId == note.tenantId
      && token.claims.role in {Admin, Member}
      && login in s.sessions && login.row in s.seen
      && login.context == note.tenantId && login.row.tenantId == note.tenantId
      && token.claims == Claims(login.row.id, login.row.tenantId, login.row.role, login.row.email)
  {
    RunSys(cfg, Start(size), evs);
    var r := note.writer;
    assert LetIn(s, r, note.tenantId);
    var c := s.tokens[r].claims;
    assert AuthInv.KnownClaims(s.auth, c);
    var user := User(c.sub, c.tenantId, c.role, c.email);
    assert SessionFor(s, user);
    login :| login in s.sessions && UserOf(login.row) == user;
  }

  /** On this path the policy's WITH CHECK never rejects a note. */
  lemma PolicyNeverRejectsNotes(cfg: Config, size: nat, evs: seq<Event>, s: System, r: ReqId)
    requires cfg.Valid() && Valid(cfg, Start(size), evs) && s == Run(cfg, Start(size), evs)
    requires r in s.db.reqs && s.db.reqs[r].kind.WriteNote?
    ensures s.db.reqs[r].phase != Db.Finished(Db.Threw(Db.PolicyViolation))
    ensures forall c :: s.db.reqs[r].phase != Db.Unwinding(c, Db.PolicyViolation)
  {
    RunSys(cfg, Start(size), evs);
    assert ReqOk(s, r, s.db.reqs[r]);
  }
}
