/**
 Tenant isolation: the shared pool and the flat tables under row-level security
 are, for every tenant, indistinguishable from a private pool over a private
 database that holds that tenant's rows only and has no policy.
 */
module Isolation {
  import opened Prelude
  import opened TenantTables
  import opened TenantMachine
  import opened PoolTheorems

  /** All that concerns tenant `a`: its requests with their results, the connections they hold, its rows. */
  datatype View = View(reqs: map<ReqId, Req>, held: map<ConnId, Lease>, users: seq<UserRow>, notes: seq<NoteRow>)

  ghost function HeldOf(held: map<ConnId, Lease>, a: Uuid): map<ConnId, Lease> {
    map c | c in held && held[c].holder.tenant == a :: held[c]
  }

  ghost function ReqsOf(reqs: map<ReqId, Req>, a: Uuid): map<ReqId, Req> {
    map r | r in reqs && r.tenant == a :: reqs[r]
  }

  ghost function ViewOf(st: State, a: Uuid): View {
    View(
      ReqsOf(st.reqs, a),
      HeldOf(st.held, a),
      UsersUnder(st.users, Some(a)),
      NotesUnder(st.notes, Some(a)))
  }

  /** Uncommitted rows belong to the tenant whose request wrote them. */
  ghost predicate PendingOk(lease: Lease) {
    && (lease.conn.user.Some? ==> lease.conn.user.value.tenantId == lease.holder.tenant)
    && (lease.conn.note.Some? ==> lease.conn.note.value.tenantId == lease.holder.tenant)
  }

  ghost predicate FlatInv(st: State) {
    PoolInv(st) && forall c | c in st.held :: PendingOk(st.held[c])
  }

  ghost predicate PrivateInv(p: State, a: Uuid) {
    && FlatInv(p)
    && (forall r | r in p.reqs :: r.tenant == a)
    && (forall u | u in p.users :: u.tenantId == a)
    && (forall n | n in p.notes :: n.tenantId == a)
  }

  ghost predicate Related(st: State, p: State, a: Uuid) {
    && FlatInv(st) && PrivateInv(p, a)
    && ViewOf(st, a) == ViewOf(p, a)
    && p.size == st.size && p.drawn <= st.drawn
  }

  // ---- One step of another tenant ------------------------------------------------------

  /** In the flat database a step keeps its writes within its own tenant. */
  ghost predicate OwnRows(st: State, r: ReqId, f: Effect) {
    && (f.user.Some? ==> f.user.value.tenantId == r.tenant)
    && (f.note.Some? ==> f.note.value.tenantId == r.tenant)
    && (f.conn.Update? ==> PendingOk(Lease(r, f.conn.conn)))
  }

  ghost predicate GuardFits(g: Guard, r: ReqId) {
    g.Rls? || g == Private(r.tenant)
  }

  lemma EffectOwnRows(g: Guard, st: State, e: Event)
    requires Ready(g, st, e) && GuardFits(g, e.req)
    requires Holding(st, e.req) ==> PendingOk(st.held[st.reqs[e.req].phase.c])
    ensures OwnRows(st, e.req, EffectOf(g, st, e))
  {
  }

  lemma NextFlat(g: Guard, st: State, e: Event)
    requires FlatInv(st) && Enabled(g, st, e) && GuardFits(g, e.req)
    ensures FlatInv(Next(g, st, e)) && Sound(st, e.req, EffectOf(g, st, e)) && OwnRows(st, e.req, EffectOf(g, st, e))
  {
    EffectReady(g, st, e);
    EffectSound(g, st, e);
    EffectOwnRows(g, st, e);
    ApplyPool(st, e.req, EffectOf(g, st, e));
    PendingKept(st, e.req, EffectOf(g, st, e));
  }

  lemma EffectReady(g: Guard, st: State, e: Event)
    requires PoolInv(st) && Enabled(g, st, e)
    ensures Ready(g, st, e)
  {
  }

  lemma PendingKept(st: State, r: ReqId, f: Effect)
    requires FlatInv(st) && Sound(st, r, f) && OwnRows(st, r, f)
    ensures forall c | c in Apply(st, r, f).held :: PendingOk(Apply(st, r, f).held[c])
  {
  }

  lemma HeldOfOther(held: map<ConnId, Lease>, c: ConnId, lease: Lease, a: Uuid)
    requires lease.holder.tenant != a && (c in held ==> held[c].holder.tenant != a)
    ensures HeldOf(held[c := lease], a) == HeldOf(held, a) == HeldOf(held - {c}, a)
  {
  }

  lemma HeldOfOwn(held: map<ConnId, Lease>, c: ConnId, lease: Lease, a: Uuid)
    requires lease.holder.tenant == a
    ensures HeldOf(held[c := lease], a) == HeldOf(held, a)[c := lease]
    ensures HeldOf(held - {c}, a) == HeldOf(held, a) - {c}
  {
  }

  lemma ReqsOfUpdate(reqs: map<ReqId, Req>, r: ReqId, req: Req, a: Uuid)
    ensures ReqsOf(reqs[r := req], a) == if r.tenant == a then ReqsOf(reqs, a)[r := req] else ReqsOf(reqs, a)
  {
  }

  /** A step of another tenant is invisible. */
  lemma OthersInvisible(st: State, r: ReqId, f: Effect, a: Uuid)
    requires Sound(st, r, f) && OwnRows(st, r, f) && r.tenant != a
    ensures ViewOf(Apply(st, r, f), a) == ViewOf(st, a)
  {
    if f.user.Some? { UsersUnderAppend(st.users, f.user.value, Some(a)); }
    if f.note.Some? { NotesUnderAppend(st.notes, f.note.value, Some(a)); }
    ReqsOfUpdate(st.reqs, r, f.req, a);
    if !f.conn.Keep? {
      var lease := if f.conn.Update? then Lease(r, f.conn.conn) else Lease(r, Drawn(st, f.conn.c));
      HeldOfOther(st.held, f.conn.c, lease, a);
    }
  }

  // ---- One step of the tenant itself -----------------------------------------------------

  /** The tenant's own request, connection and rows look the same on both sides. */
  lemma SameSurroundings(st: State, p: State, a: Uuid, r: ReqId)
    requires Related(st, p, a) && r.tenant == a
    ensures r in st.reqs <==> r in p.reqs
    ensures r in st.reqs ==> st.reqs[r] == p.reqs[r]
    ensures Holding(st, r) ==> Holding(p, r) && st.held[st.reqs[r].phase.c] == p.held[st.reqs[r].phase.c]
    ensures forall c | c in p.held :: c in st.held && st.held[c] == p.held[c] && p.held[c].holder.tenant == a
    ensures p.users == UsersUnder(st.users, Some(a)) && p.notes == NotesUnder(st.notes, Some(a))
  {
    var v, w := ViewOf(st, a), ViewOf(p, a);
    assert r in st.reqs <==> r in v.reqs;
    assert r in p.reqs <==> r in w.reqs;
    forall c | c in p.held
      ensures c in st.held && st.held[c] == p.held[c] && p.held[c].holder.tenant == a
    {
      assert LeaseOk(p, c);
      assert c in w.held && c in v.held;
    }
    if Holding(st, r) {
      assert st.reqs[r].phase.c in v.held;
    }
    UsersUnderAll(p.users, Some(a));
    NotesUnderAll(p.notes, Some(a));
  }

  lemma SameTaken(h: Guard, st: State, p: State, a: Uuid, email: string)
    requires h.Rls? || h == Private(a)
    requires p.users == UsersUnder(st.users, Some(a)) && forall u | u in p.users :: u.tenantId == a
    ensures Taken(Rls, st.users, a, email) <==> Taken(h, p.users, a, email)
  {
    UsersUnderMembers(st.users, Some(a));
    if Taken(Rls, st.users, a, email) {
      var u :| u in st.users && SameKey(Rls, u, a, email);
      assert u in p.users;
    }
    if Taken(h, p.users, a, email) {
      var u :| u in p.users && SameKey(h, u, a, email);
      assert u in st.users;
    }
  }

  lemma SamePerform(h: Guard, st: State, p: State, a: Uuid, r: ReqId, req: Req, id: Uuid, at: nat)
    requires h.Rls? || h == Private(a)
    requires p.users == UsersUnder(st.users, Some(a)) && p.notes == NotesUnder(st.notes, Some(a))
    requires forall u | u in p.users :: u.tenantId == a
    requires forall n | n in p.notes :: n.tenantId == a
    ensures Perform(Rls, st, r, req, Some(a), id, at) == Perform(h, p, r, req, Some(a), id, at)
  {
    UsersUnderAll(p.users, Some(a));
    NotesUnderAll(p.notes, Some(a));
    if req.kind.Register? { SameTaken(h, st, p, a, req.kind.email); }
  }

  lemma SameWaiting(h: Guard, st: State, p: State, a: Uuid, r: ReqId, req: Req)
    requires h.Rls? || h == Private(a)
    requires HeldOf(st.held, a) == p.held && forall c | c in st.held :: PendingOk(st.held[c])
    ensures WaitsForInsert(Rls, st, r, req, Some(a)) <==> WaitsForInsert(h, p, r, req, Some(a))
  {
    if WaitsForInsert(Rls, st, r, req, Some(a)) {
      var c :| c in st.held && st.held[c].holder != r && st.held[c].conn.user.Some?
               && SameKey(Rls, st.held[c].conn.user.value, req.kind.tenantId, req.kind.email);
      assert PendingOk(st.held[c]);
      assert c in p.held && p.held[c] == st.held[c];
    }
    if WaitsForInsert(h, p, r, req, Some(a)) {
      var c :| c in p.held && p.held[c].holder != r && p.held[c].conn.user.Some?
               && SameKey(h, p.held[c].conn.user.value, req.kind.tenantId, req.kind.email);
      assert c in st.held && p.held[c] == st.held[c] && PendingOk(st.held[c]);
    }
  }

  lemma SameEnabledInputs(h: Guard, st: State, p: State, e: Event)
    requires Enabled(Rls, st, e)
    requires (e.req in st.reqs <==> e.req in p.reqs) && (e.req in st.reqs ==> st.reqs[e.req] == p.reqs[e.req])
    requires Holding(st, e.req) ==> Holding(p, e.req)
    requires (forall c | c in p.held :: c in st.held) && p.size == st.size && p.drawn <= st.drawn
    requires e.act.Work? ==>
      var c := st.reqs[e.req].phase.c;
      !WaitsForInsert(h, p, e.req, p.reqs[e.req], p.held[c].conn.setting)
    ensures Enabled(h, p, e)
  {
  }

  /** A private pool is held by its owner alone. */
  lemma HeldByOwner(st: State, p: State, a: Uuid)
    requires Related(st, p, a)
    ensures HeldOf(st.held, a) == p.held
  {
    forall c | c in p.held
      ensures p.held[c].holder.tenant == a
    {
      assert LeaseOk(p, c);
    }
    assert ViewOf(st, a).held == ViewOf(p, a).held;
  }

  /** At the work the connection carries the request's own tenant. */
  lemma WorksAsOwner(st: State, e: Event)
    requires PoolInv(st) && Enabled(Rls, st, e) && e.act.Work?
    ensures st.held[st.reqs[e.req].phase.c].conn.setting == Some(e.req.tenant)
  {
    assert LeaseOk(st, st.reqs[e.req].phase.c);
  }

  lemma SameEnabled(h: Guard, st: State, p: State, a: Uuid, e: Event)
    requires h.Rls? || h == Private(a)
    requires Related(st, p, a) && e.req.tenant == a && Enabled(Rls, st, e)
    ensures Enabled(h, p, e)
  {
    SameSurroundings(st, p, a, e.req);
    if e.act.Work? {
      WorksAsOwner(st, e);
      HeldByOwner(st, p, a);
      SameWaiting(h, st, p, a, e.req, st.reqs[e.req]);
    }
    SameEnabledInputs(h, st, p, e);
  }

  /** An effect depends on the request, its connection and the visible rows only. */
  lemma SameInputsSameEffect(h: Guard, st: State, p: State, a: Uuid, e: Event)
    requires Enabled(Rls, st, e) && Enabled(h, p, e) && e.req.tenant == a
    requires e.req in st.reqs ==> e.req in p.reqs && st.reqs[e.req] == p.reqs[e.req]
    requires Holding(st, e.req) ==>
      Holding(p, e.req) && st.held[st.reqs[e.req].phase.c] == p.held[st.reqs[e.req].phase.c]
    requires e.act.Work? ==>
      var req := st.reqs[e.req];
      Perform(Rls, st, e.req, req, st.held[req.phase.c].conn.setting, e.act.id, e.act.at)
      == Perform(h, p, e.req, req, st.held[req.phase.c].conn.setting, e.act.id, e.act.at)
    ensures EffectOf(Rls, st, e) == EffectOf(h, p, e)
  {
  }

  lemma SameEffect(h: Guard, st: State, p: State, a: Uuid, e: Event)
    requires h.Rls? || h == Private(a)
    requires Related(st, p, a) && e.req.tenant == a && Enabled(Rls, st, e) && Enabled(h, p, e)
    ensures EffectOf(Rls, st, e) == EffectOf(h, p, e)
  {
    SameSurroundings(st, p, a, e.req);
    if e.act.Work? {
      WorksAsOwner(st, e);
      SamePerform(h, st, p, a, e.req, st.reqs[e.req], e.act.id, e.act.at);
    }
    SameInputsSameEffect(h, st, p, a, e);
  }

  lemma ViewAfterOwn(st: State, a: Uuid, r: ReqId, f: Effect)
    requires Sound(st, r, f) && r.tenant == a && (forall c | c in st.idle :: st.idle[c] == CLEAN)
    ensures ViewOf(Apply(st, r, f), a) ==
      var v := ViewOf(st, a);
      View(
        v.reqs[r := f.req],
        match f.conn
        case Keep => v.held
        case Take(c) => v.held[c := Lease(r, CLEAN)]
        case Update(c, conn) => v.held[c := Lease(r, conn)]
        case Return(c, _) => v.held - {c},
        v.users + (if f.user.Some? && f.user.value.tenantId == a then [f.user.value] else []),
        v.notes + (if f.note.Some? && f.note.value.tenantId == a then [f.note.value] else []))
  {
    if f.user.Some? { UsersUnderAppend(st.users, f.user.value, Some(a)); }
    if f.note.Some? { NotesUnderAppend(st.notes, f.note.value, Some(a)); }
    ReqsOfUpdate(st.reqs, r, f.req, a);
    if !f.conn.Keep? {
      HeldOfOwn(st.held, f.conn.c, if f.conn.Update? then Lease(r, f.conn.conn) else Lease(r, CLEAN), a);
    }
  }

  lemma PrivateKept(h: Guard, p: State, a: Uuid, e: Event)
    requires h.Rls? || h == Private(a)
    requires PrivateInv(p, a) && Enabled(h, p, e) && e.req.tenant == a
    ensures PrivateInv(Next(h, p, e), a) && Sound(p, e.req, EffectOf(h, p, e))
  {
    NextFlat(h, p, e);
  }

  lemma SameViews(st: State, p: State, a: Uuid, r: ReqId, f: Effect)
    requires Related(st, p, a) && r.tenant == a && Sound(st, r, f) && Sound(p, r, f)
    ensures ViewOf(Apply(st, r, f), a) == ViewOf(Apply(p, r, f), a)
  {
    ViewAfterOwn(st, a, r, f);
    ViewAfterOwn(p, a, r, f);
  }

  lemma OwnStep(h: Guard, st: State, p: State, a: Uuid, e: Event)
    requires h.Rls? || h == Private(a)
    requires Related(st, p, a) && e.req.tenant == a && Enabled(Rls, st, e)
    ensures Enabled(h, p, e)
    ensures Related(Next(Rls, st, e), Next(h, p, e), a)
  {
    SameEnabled(h, st, p, a, e);
    SameEffect(h, st, p, a, e);
    NextFlat(Rls, st, e);
    PrivateKept(h, p, a, e);
    SameViews(st, p, a, e.req, EffectOf(Rls, st, e));
    var f := EffectOf(Rls, st, e);
    assert Next(Rls, st, e) == Apply(st, e.req, f) && Next(h, p, e) == Apply(p, e.req, f);
  }

  lemma OtherStep(st: State, p: State, a: Uuid, e: Event)
    requires Related(st, p, a) && e.req.tenant != a && Enabled(Rls, st, e)
    ensures Related(Next(Rls, st, e), p, a)
  {
    NextFlat(Rls, st, e);
    OthersInvisible(st, e.req, EffectOf(Rls, st, e), a);
  }

  // ---- Whole runs ------------------------------------------------------------------------------

  /** The run with every other tenant's steps deleted. */
  function Purge(evs: seq<Event>, a: Uuid): seq<Event> {
    if evs == [] then []
    else (if evs[0].req.tenant == a then [evs[0]] else []) + Purge(evs[1..], a)
  }

  lemma {:induction false} Simulates(h: Guard, st: State, p: State, a: Uuid, evs: seq<Event>)
    requires h.Rls? || h == Private(a)
    requires Related(st, p, a) && Valid(Rls, st, evs)
    ensures Valid(h, p, Purge(evs, a))
    ensures Related(Run(Rls, st, evs), Run(h, p, Purge(evs, a)), a)
    decreases |evs|
  {
    if evs == [] {
    } else {
      var e, st' := evs[0], Next(Rls, st, evs[0]);
      if e.req.tenant == a {
        OwnStep(h, st, p, a, e);
        Simulates(h, st', Next(h, p, e), a, evs[1..]);
        assert Purge(evs, a)[1..] == Purge(evs[1..], a);
      } else {
        OtherStep(st, p, a, e);
        Simulates(h, st', p, a, evs[1..]);
        assert Purge(evs, a) == Purge(evs[1..], a);
      }
    }
  }

  /**
   The shared database refines one private database per tenant: whatever all tenants
   do and whatever fails, tenant `a` sees the run of its own steps on a database
   without policy that holds its rows only.
   */
  lemma RefinesPrivateDatabase(size: nat, a: Uuid, evs: seq<Event>)
    requires Valid(Rls, Init(size), evs)
    ensures Valid(Private(a), Init(size), Purge(evs, a))
    ensures var flat, alone := Run(Rls, Init(size), evs), Run(Private(a), Init(size), Purge(evs, a));
      && ViewOf(flat, a) == ViewOf(alone, a)
      && alone.users == UsersUnder(flat.users, Some(a)) && alone.notes == NotesUnder(flat.notes, Some(a))
  {
    Simulates(Private(a), Init(size), Init(size), a, evs);
    var alone := Run(Private(a), Init(size), Purge(evs, a));
    UsersUnderAll(alone.users, Some(a));
    NotesUnderAll(alone.notes, Some(a));
  }

  /**
   Non-interference: deleting every other tenant's steps leaves a valid run in which
   all of tenant `a`'s requests end with the same results.
   */
  lemma NonInterference(size: nat, a: Uuid, evs: seq<Event>)
    requires Valid(Rls, Init(size), evs)
    ensures Valid(Rls, Init(size), Purge(evs, a))
    ensures var with, without := Run(Rls, Init(size), evs), Run(Rls, Init(size), Purge(evs, a));
      && ViewOf(with, a) == ViewOf(without, a)
      && forall r: ReqId | r.tenant == a :: (r in with.reqs <==> r in without.reqs)
                                     && (r in with.reqs ==> with.reqs[r] == without.reqs[r])
  {
    Simulates(Rls, Init(size), Init(size), a, evs);
    var with, without := Run(Rls, Init(size), evs), Run(Rls, Init(size), Purge(evs, a));
    forall r: ReqId | r.tenant == a
      ensures r in with.reqs <==> r in without.reqs
      ensures r in with.reqs ==> with.reqs[r] == without.reqs[r]
    {
      assert r in with.reqs <==> r in ViewOf(with, a).reqs;
      assert r in without.reqs <==> r in ViewOf(without, a).reqs;
    }
  }
}
