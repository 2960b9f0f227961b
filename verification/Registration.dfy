/**
 The registration race: `register` checks, hashes without a connection, then
 inserts, and the unique constraint decides.
 */
module Registration {
  import opened Prelude
  import opened TenantTables
  import opened TenantMachine
  import opened PoolTheorems
  import opened Isolation

  ghost predicate Has(users: seq<UserRow>, tenant: Uuid, email: string) {
    exists u | u in users :: u.tenantId == tenant && u.email == email
  }

  /** UNIQUE (tenant_id, email). */
  ghost predicate UniquePairs(users: seq<UserRow>) {
    forall j, k | 0 <= j < k < |users| :: !(users[j].tenantId == users[k].tenantId && users[j].email == users[k].email)
  }

  predicate Apart(u: UserRow, v: UserRow) {
    !SameKey(Rls, u, v.tenantId, v.email)
  }

  /** Uncommitted users clash neither with committed ones nor with each other. */
  ghost predicate PendingApart(st: State) {
    && (forall c | c in st.held && st.held[c].conn.user.Some? ::
          !Has(st.users, st.held[c].conn.user.value.tenantId, st.held[c].conn.user.value.email))
    && (forall c, d | c in st.held && d in st.held && c != d
                      && st.held[c].conn.user.Some? && st.held[d].conn.user.Some? ::
          Apart(st.held[c].conn.user.value, st.held[d].conn.user.value))
  }

  /** `u` is the row request `r` was asked to register. */
  ghost predicate WrittenBy(u: UserRow, r: ReqId, kind: Kind) {
    && u.writer == r && kind.Register?
    && u.tenantId == r.tenant == kind.tenantId && u.email == kind.email
  }

  /** What an outcome of `r` says about the table. */
  ghost predicate OutcomeTrue(users: seq<UserRow>, r: ReqId, req: Req, outcome: Outcome) {
    match outcome
    case Returned(UserCreated(u)) => u in users && WrittenBy(u, r, req.kind)
    case Returned(UserFound(Some(_))) => req.kind.Register? ==> Has(users, r.tenant, req.kind.email)
    case Threw(UniqueViolation) => req.kind.Register? && Has(users, r.tenant, req.kind.email)
    case Threw(Conflict) => req.kind.Register? && Has(users, r.tenant, req.kind.email)
    case _ => true
  }

  ghost predicate ReqTrue(users: seq<UserRow>, r: ReqId, req: Req) {
    match req.phase
    case Worked(_, UserCreated(u)) => WrittenBy(u, r, req.kind)
    case Worked(_, UserFound(Some(_))) => req.kind.Register? ==> Has(users, r.tenant, req.kind.email)
    case Unwinding(_, error) => OutcomeTrue(users, r, req, Threw(error)) && error != Conflict
    case Releasing(_, log) => OutcomeTrue(users, r, req, log.outcome) && log.outcome != Threw(Conflict)
    case Finished(outcome) => OutcomeTrue(users, r, req, outcome)
    case _ => true
  }

  /** The request that wrote a committed row knows it, and will return it. */
  ghost predicate WriterKnows(st: State, u: UserRow) {
    && u.writer in st.reqs
    && WrittenBy(u, u.writer, st.reqs[u.writer].kind)
    && var phase := st.reqs[u.writer].phase;
       (phase.Releasing? && phase.log.outcome == Returned(UserCreated(u)))
         || phase == Finished(Returned(UserCreated(u)))
  }

  ghost predicate RegInv(st: State) {
    && FlatInv(st)
    && UniquePairs(st.users)
    && PendingApart(st)
    && (forall r | r in st.reqs :: ReqTrue(st.users, r, st.reqs[r]))
    && (forall u | u in st.users :: WriterKnows(st, u))
  }

  // ---- Preservation ------------------------------------------------------------------

  /** What an effect may do to the users table. */
  ghost predicate RegSound(st: State, r: ReqId, f: Effect) {
    && ReqTrue(if f.user.Some? then st.users + [f.user.value] else st.users, r, f.req)
    && (f.user.Some? ==>
          && Holding(st, r) && st.held[st.reqs[r].phase.c].conn.user == f.user
          && WrittenBy(f.user.value, r, f.req.kind)
          && f.req.phase.Releasing? && f.req.phase.log.outcome == Returned(UserCreated(f.user.value))
          && f.conn == Update(st.reqs[r].phase.c, CLEAN))
    && (f.conn.Update? && f.conn.conn.user.Some? ==>
          || (Holding(st, r) && st.held[st.reqs[r].phase.c].conn.user == f.conn.conn.user)
          || var u := f.conn.conn.user.value;
             !Has(st.users, u.tenantId, u.email)
             && forall c | c in st.held && st.held[c].holder != r && st.held[c].conn.user.Some? ::
                  Apart(st.held[c].conn.user.value, u))
    && (r in st.reqs ==>
          && f.req.kind == st.reqs[r].kind
          && !st.reqs[r].phase.Finished?
          && (st.reqs[r].phase.Releasing? && st.reqs[r].phase.log.outcome.Returned?
              && st.reqs[r].phase.log.outcome.value.UserCreated? ==>
                f.req.phase == Finished(st.reqs[r].phase.log.outcome)))
  }

  lemma WorkTrue(st: State, e: Event)
    requires Ready(Rls, st, e) && e.act.Work?
    ensures RegSound(st, e.req, EffectOf(Rls, st, e))
  {
    var req := st.reqs[e.req];
    var setting := st.held[req.phase.c].conn.setting;
    assert setting == Some(e.req.tenant);
    if req.kind.Register? {
      UsersUnderMembers(st.users, setting);
      var found := FirstByEmail(VisibleUsers(Rls, st.users, setting), req.kind.email);
    }
  }

  lemma EffectTrue(st: State, e: Event)
    requires Ready(Rls, st, e)
    requires e.req in st.reqs ==> ReqTrue(st.users, e.req, st.reqs[e.req])
    ensures RegSound(st, e.req, EffectOf(Rls, st, e))
  {
    if e.act.Work? {
      WorkTrue(st, e);
    } else if e.act.Commit? {
      var u := st.held[st.reqs[e.req].phase.c].conn.user;
      if u.Some? { assert (st.users + [u.value])[|st.users|] == u.value; }
    }
  }

  lemma HasMore(users: seq<UserRow>, u: UserRow, tenant: Uuid, email: string)
    ensures Has(users + [u], tenant, email) <==> Has(users, tenant, email) || (u.tenantId == tenant && u.email == email)
  {
    assert forall v :: v in users + [u] <==> v in users || v == u;
    assert u in users + [u];
  }

  lemma ReqTrueMore(users: seq<UserRow>, u: UserRow, r: ReqId, req: Req)
    requires ReqTrue(users, r, req)
    ensures ReqTrue(users + [u], r, req)
  {
    if req.kind.Register? { HasMore(users, u, r.tenant, req.kind.email); }
  }

  lemma UniqueMore(users: seq<UserRow>, u: UserRow)
    requires UniquePairs(users) && !Has(users, u.tenantId, u.email)
    ensures UniquePairs(users + [u])
  {
    forall j | 0 <= j < |users|
      ensures !(users[j].tenantId == u.tenantId && users[j].email == u.email)
    {
      assert users[j] in users;
    }
  }

  /** A pending user after a step was pending before, or is the one just inserted and clashes with nothing. */
  lemma PendingOrigin(st: State, r: ReqId, f: Effect, c: ConnId)
    requires PoolInv(st) && Sound(st, r, f)
    requires c in Apply(st, r, f).held && Apply(st, r, f).held[c].conn.user.Some?
    ensures || (c in st.held && st.held[c].conn.user == Apply(st, r, f).held[c].conn.user
                && !(f.conn.Update? && f.conn.c == c && f.user.Some?))
            || (f.conn == Update(c, Apply(st, r, f).held[c].conn) && Holding(st, r) && st.reqs[r].phase.c == c)
  {
    if c in st.held { assert LeaseOk(st, c); }
  }

  lemma PendingKeptOffTable(st: State, r: ReqId, f: Effect, c: ConnId)
    requires PoolInv(st) && PendingApart(st) && Sound(st, r, f) && RegSound(st, r, f)
    requires c in Apply(st, r, f).held && Apply(st, r, f).held[c].conn.user.Some?
    ensures var u := Apply(st, r, f).held[c].conn.user.value; !Has(Apply(st, r, f).users, u.tenantId, u.email)
  {
    var u := Apply(st, r, f).held[c].conn.user.value;
    PendingOrigin(st, r, f, c);
    if f.user.Some? { HasMore(st.users, f.user.value, u.tenantId, u.email); }
  }

  lemma PendingKeptDistinct(st: State, r: ReqId, f: Effect, c: ConnId, d: ConnId)
    requires PoolInv(st) && PendingApart(st) && Sound(st, r, f) && RegSound(st, r, f) && c != d
    requires var held := Apply(st, r, f).held;
      c in held && d in held && held[c].conn.user.Some? && held[d].conn.user.Some?
    ensures var held := Apply(st, r, f).held;
      Apart(held[c].conn.user.value, held[d].conn.user.value)
  {
    PendingOrigin(st, r, f, c);
    PendingOrigin(st, r, f, d);
    if c in st.held { assert LeaseOk(st, c); }
    if d in st.held { assert LeaseOk(st, d); }
  }

  lemma PendingKeptApart(st: State, r: ReqId, f: Effect)
    requires PoolInv(st) && PendingApart(st) && Sound(st, r, f) && RegSound(st, r, f)
    ensures PendingApart(Apply(st, r, f))
  {
    var st' := Apply(st, r, f);
    forall c | c in st'.held && st'.held[c].conn.user.Some?
      ensures !Has(st'.users, st'.held[c].conn.user.value.tenantId, st'.held[c].conn.user.value.email)
    {
      PendingKeptOffTable(st, r, f, c);
    }
    forall c, d | c in st'.held && d in st'.held && c != d && st'.held[c].conn.user.Some? && st'.held[d].conn.user.Some?
      ensures Apart(st'.held[c].conn.user.value, st'.held[d].conn.user.value)
    {
      PendingKeptDistinct(st, r, f, c, d);
    }
  }

  lemma WritersKnow(st: State, r: ReqId, f: Effect)
    requires RegInv(st) && RegSound(st, r, f)
    ensures forall u | u in Apply(st, r, f).users :: WriterKnows(Apply(st, r, f), u)
  {
    var st' := Apply(st, r, f);
    forall u | u in st'.users
      ensures WriterKnows(st', u)
    {
      if u in st.users { assert WriterKnows(st, u); }
    }
  }

  lemma NextReg(st: State, e: Event)
    requires RegInv(st) && Enabled(Rls, st, e)
    ensures RegInv(Next(Rls, st, e))
  {
    var r, f, st' := e.req, EffectOf(Rls, st, e), Next(Rls, st, e);
    EffectReady(Rls, st, e);
    NextFlat(Rls, st, e);
    EffectTrue(st, e);
    PendingKeptApart(st, r, f);
    WritersKnow(st, r, f);
    if f.user.Some? { UniqueMore(st.users, f.user.value); }
    forall q | q in st'.reqs
      ensures ReqTrue(st'.users, q, st'.reqs[q])
    {
      if q != r && f.user.Some? { ReqTrueMore(st.users, f.user.value, q, st.reqs[q]); }
    }
  }

  lemma {:induction false} RunReg(st: State, evs: seq<Event>)
    requires RegInv(st) && Valid(Rls, st, evs)
    ensures RegInv(Run(Rls, st, evs))
    decreases |evs|
  {
    if evs == [] {
    } else {
      NextReg(st, evs[0]);
      RunReg(Next(Rls, st, evs[0]), evs[1..]);
    }
  }

  // ---- Always, with any failures ---------------------------------------------------------

  /** No pair ever has two rows, and a Conflict means a committed row for that pair. */
  lemma ConflictMeansTaken(size: nat, evs: seq<Event>)
    requires Valid(Rls, Init(size), evs)
    ensures UniquePairs(Run(Rls, Init(size), evs).users)
    ensures var st := Run(Rls, Init(size), evs);
      forall r | r in st.reqs && st.reqs[r].phase == Finished(Threw(Conflict)) ::
        st.reqs[r].kind.Register? && Has(st.users, r.tenant, st.reqs[r].kind.email)
  {
    RunReg(Init(size), evs);
    var st := Run(Rls, Init(size), evs);
    forall r | r in st.reqs && st.reqs[r].phase == Finished(Threw(Conflict))
      ensures st.reqs[r].kind.Register? && Has(st.users, r.tenant, st.reqs[r].kind.email)
    {
      assert ReqTrue(st.users, r, st.reqs[r]);
    }
  }

  /** Whatever fails, no two registrations of one pair both return a user. */
  lemma AtMostOneRegisters(size: nat, evs: seq<Event>, st: State, r: ReqId, u: UserRow, q: ReqId, v: UserRow)
    requires Valid(Rls, Init(size), evs) && st == Run(Rls, Init(size), evs)
    requires r in st.reqs && st.reqs[r].phase == Finished(Returned(UserCreated(u)))
    requires q in st.reqs && st.reqs[q].phase == Finished(Returned(UserCreated(v)))
    requires u.tenantId == v.tenantId && u.email == v.email
    ensures r == q && u in st.users
  {
    RunReg(Init(size), evs);
    assert ReqTrue(st.users, r, st.reqs[r]) && ReqTrue(st.users, q, st.reqs[q]);
    OneRowPerPair(st.users, u, v);
  }

  // ---- Without failures --------------------------------------------------------------------

  /** A registration for the context's own tenant, as the controller always asks. */
  ghost predicate OwnRegistration(r: ReqId, req: Req) {
    req.kind.Register? && req.kind.tenantId == r.tenant
  }

  ghost predicate CleanOutcome(req: Req, outcome: Outcome) {
    if req.hash.None? then outcome.Returned? && outcome.value.UserFound?
    else (outcome.Returned? && outcome.value.UserCreated?) || outcome == Threw(UniqueViolation)
  }

  /** Without failures an own registration meets only the constraint. */
  ghost predicate NoSurprise(r: ReqId, req: Req) {
    OwnRegistration(r, req) ==>
      match req.phase
      case Worked(_, value) => CleanOutcome(req, Returned(value))
      case Unwinding(_, error) => req.hash.Some? && error == UniqueViolation
      case Releasing(_, log) => CleanOutcome(req, log.outcome)
      case Hashing => req.hash.None?
      case Finished(outcome) => (outcome.Returned? && outcome.value.UserCreated?) || outcome == Threw(Conflict)
      case _ => true
  }

  lemma NextClean(st: State, e: Event)
    requires Ready(Rls, st, e) && !IsFault(e.act)
    requires e.req in st.reqs ==> NoSurprise(e.req, st.reqs[e.req])
    ensures NoSurprise(e.req, EffectOf(Rls, st, e).req)
  {
  }

  /** Only the request's own steps matter. */
  lemma {:induction false} RunClean(st: State, evs: seq<Event>, r: ReqId)
    requires PoolInv(st) && Valid(Rls, st, evs)
    requires forall k | 0 <= k < |evs| && evs[k].req == r :: !IsFault(evs[k].act)
    requires r in st.reqs ==> NoSurprise(r, st.reqs[r])
    ensures r in Run(Rls, st, evs).reqs ==> NoSurprise(r, Run(Rls, st, evs).reqs[r])
    decreases |evs|
  {
    if evs == [] {
    } else {
      if evs[0].req == r {
        EffectReady(Rls, st, evs[0]);
        NextClean(st, evs[0]);
      }
      NextPool(Rls, st, evs[0]);
      RunClean(Next(Rls, st, evs[0]), evs[1..], r);
    }
  }

  ghost predicate Racer(st: State, r: ReqId, tenant: Uuid, email: string) {
    r in st.reqs && r.tenant == tenant && OwnRegistration(r, st.reqs[r]) && st.reqs[r].kind.email == email
  }

  ghost predicate Wins(st: State, r: ReqId) {
    r in st.reqs && st.reqs[r].phase.Finished? && st.reqs[r].phase.outcome.Returned?
  }

  /**
   Any number of interleaved registrations of one pair, none of their own steps failing,
   whatever happens to other requests: once all have ended, exactly one returned a user
   and every other raised Conflict.
   */
  lemma {:induction false} RegistrationRace(size: nat, evs: seq<Event>, st: State, tenant: Uuid, email: string)
    returns (winner: ReqId)
    requires Valid(Rls, Init(size), evs) && st == Run(Rls, Init(size), evs)
    requires forall k | 0 <= k < |evs| && Racer(st, evs[k].req, tenant, email) :: !IsFault(evs[k].act)
    requires exists r :: Racer(st, r, tenant, email)
    requires forall r | Racer(st, r, tenant, email) :: st.reqs[r].phase.Finished?
    ensures Racer(st, winner, tenant, email) && Wins(st, winner)
    ensures forall r | Racer(st, r, tenant, email) && r != winner :: st.reqs[r].phase == Finished(Threw(Conflict))
  {
    RunReg(Init(size), evs);
    forall r | Racer(st, r, tenant, email)
      ensures NoSurprise(r, st.reqs[r])
    {
      RunClean(Init(size), evs, r);
    }
    winner := RaceDecided(st, tenant, email);
  }

  lemma {:induction false} RaceDecided(st: State, tenant: Uuid, email: string) returns (winner: ReqId)
    requires RegInv(st) && forall r | Racer(st, r, tenant, email) :: NoSurprise(r, st.reqs[r])
    requires exists r :: Racer(st, r, tenant, email)
    requires forall r | Racer(st, r, tenant, email) :: st.reqs[r].phase.Finished?
    ensures Racer(st, winner, tenant, email) && Wins(st, winner)
    ensures forall r | Racer(st, r, tenant, email) && r != winner :: st.reqs[r].phase == Finished(Threw(Conflict))
  {
    var some :| Racer(st, some, tenant, email);
    assert NoSurprise(some, st.reqs[some]) && ReqTrue(st.users, some, st.reqs[some]);
    assert Has(st.users, tenant, email);
    var u :| u in st.users && u.tenantId == tenant && u.email == email;
    assert WriterKnows(st, u);
    winner := u.writer;
    forall r | Racer(st, r, tenant, email) && r != winner
      ensures st.reqs[r].phase == Finished(Threw(Conflict))
    {
      assert NoSurprise(r, st.reqs[r]) && ReqTrue(st.users, r, st.reqs[r]);
      if st.reqs[r].phase.outcome.Returned? {
        OneRowPerPair(st.users, u, st.reqs[r].phase.outcome.value.created);
      }
    }
  }

  lemma OneRowPerPair(users: seq<UserRow>, u: UserRow, v: UserRow)
    requires UniquePairs(users) && u in users && v in users && u.tenantId == v.tenantId && u.email == v.email
    ensures u == v
  {
    var j :| 0 <= j < |users| && users[j] == u;
    var k :| 0 <= k < |users| && users[k] == v;
  }
}
