/**
 Connection hygiene under every failure schedule, and progress of the pool.
 */
module PoolTheorems {
  import opened Prelude
  import opened TenantTables
  import opened TenantMachine

  // ---- The invariant ----------------------------------------------------------------

  /**
   What one `run` may report: a value exactly when its commit succeeded, else the original error
   unless rollback itself threw.
   */
  ghost predicate LogOk(log: RunLog) {
    && (log.outcome.Returned? <==> log.committed)
    && (log.committed ==> log.connected && log.raised.None?)
    && (!log.connected ==> log.outcome == Threw(ConnectError) && log.raised.None?)
    && (log.connected && !log.committed ==>
          log.raised.Some? && log.outcome == Threw(if log.rollbackFailed then RollbackError else log.raised.value))
    && (log.rollbackFailed ==> log.connected && !log.committed)
  }

  /** Runs that got a connection. */
  function ConnectedRuns(logs: seq<RunLog>): nat {
    if logs == [] then 0
    else ConnectedRuns(logs[..|logs| - 1]) + (if logs[|logs| - 1].connected then 1 else 0)
  }

  ghost predicate ReqOk(req: Req) {
    && req.releases == ConnectedRuns(req.logs)
    && req.connects == req.releases + (if req.phase.Holds() then 1 else 0)
    && (forall k | 0 <= k < |req.logs| :: LogOk(req.logs[k]))
    && (req.phase.Releasing? ==> LogOk(req.phase.log) && req.phase.log.connected)
    && (req.phase.Finished? ==> req.logs != [] && req.phase == AfterRun(req, req.logs[|req.logs| - 1].outcome))
  }

  /** The connection a request holds, by the request's phase. */
  ghost predicate ConnOk(r: ReqId, phase: Phase, conn: Conn) {
    match phase
    case Connected(_) => conn == CLEAN
    case Begun(_) => conn == CLEAN.(txOpen := true)
    case Scoped(_) => conn == Conn(true, Some(r.tenant), None, None)
    case Worked(_, value) =>
      && conn.txOpen && conn.setting == Some(r.tenant)
      && conn.user == (if value.UserCreated? then Some(value.created) else None)
      && conn.note == (if value.NoteCreated? then Some(value.note) else None)
    case Releasing(_, log) => OwnSetting(r, conn) && (!log.rollbackFailed ==> conn == CLEAN)
    case _ => OwnSetting(r, conn)
  }

  /** A connection's tenant is unset or its holder's. */
  ghost predicate OwnSetting(r: ReqId, conn: Conn) {
    conn.setting == None || conn.setting == Some(r.tenant)
  }

  ghost predicate LeaseOk(st: State, c: ConnId)
    requires c in st.held
  {
    && c < st.size && c !in st.idle
    && Holding(st, st.held[c].holder) && st.reqs[st.held[c].holder].phase.c == c
    && ConnOk(st.held[c].holder, st.reqs[st.held[c].holder].phase, st.held[c].conn)
  }

  ghost predicate PoolInv(st: State) {
    && (forall c | c in st.held :: LeaseOk(st, c))
    && (forall r | r in st.reqs && st.reqs[r].phase.Holds() :: Holding(st, r))
    && (forall c | c in st.idle :: c < st.size && st.idle[c] == CLEAN)
    && (forall r | r in st.reqs :: ReqOk(st.reqs[r]))
  }

  // ---- Preservation --------------------------------------------------------------------

  /** What an effect may do to the pool. */
  ghost predicate Sound(st: State, r: ReqId, f: Effect) {
    && ReqOk(f.req)
    && match f.conn
       case Keep =>
         if r in st.reqs && st.reqs[r].phase.Holds()
         then
           && Holding(st, r) && f.req.phase.Holds() && f.req.phase.c == st.reqs[r].phase.c
           && ConnOk(r, f.req.phase, st.held[f.req.phase.c].conn)
         else !f.req.phase.Holds()
       case Take(c) =>
         r in st.reqs && !st.reqs[r].phase.Holds() && c < st.size && c !in st.held && f.req.phase == Connected(c)
       case Update(c, conn) =>
         && Holding(st, r) && c == st.reqs[r].phase.c
         && f.req.phase.Holds() && f.req.phase.c == c && ConnOk(r, f.req.phase, conn)
       case Return(c, discard) =>
         && Holding(st, r) && c == st.reqs[r].phase.c && !f.req.phase.Holds()
         && (!discard ==> st.held[c].conn == CLEAN)
  }

  lemma EndRunOk(req: Req, log: RunLog)
    requires ReqOk(req) && LogOk(log) && (req.phase.Holds() <==> log.connected)
    ensures var req' := EndRun(req, log).(releases := req.releases + (if log.connected then 1 else 0)); ReqOk(req')
  {
    var logs' := req.logs + [log];
    assert logs'[..|logs'| - 1] == req.logs;
  }

  /** All an effect rests on: its own request and connection. */
  ghost predicate Ready(g: Guard, st: State, e: Event) {
    && Enabled(g, st, e)
    && (e.req in st.reqs ==> ReqOk(st.reqs[e.req]))
    && (e.req in st.reqs && st.reqs[e.req].phase.Holds() ==> Holding(st, e.req) && LeaseOk(st, st.reqs[e.req].phase.c))
  }

  lemma WorkSound(g: Guard, st: State, e: Event)
    requires Ready(g, st, e) && e.act.Work?
    ensures Sound(st, e.req, EffectOf(g, st, e))
  {
  }

  lemma AcquireSound(g: Guard, st: State, e: Event)
    requires Ready(g, st, e)
    requires e.act.Arrive? || e.act.Connect? || e.act.ConnectFails? || e.act.Hashed? || e.act.Release?
    ensures Sound(st, e.req, EffectOf(g, st, e))
  {
    if e.act.ConnectFails? {
      EndRunOk(st.reqs[e.req], RunLog(false, false, None, false, Threw(ConnectError)));
    } else if e.act.Release? {
      EndRunOk(st.reqs[e.req], st.reqs[e.req].phase.log);
    }
  }

  lemma EffectSound(g: Guard, st: State, e: Event)
    requires Ready(g, st, e)
    ensures Sound(st, e.req, EffectOf(g, st, e))
  {
    match e.act
    case Work(_, _) => WorkSound(g, st, e);
    case Arrive(_) => AcquireSound(g, st, e);
    case Connect(_) => AcquireSound(g, st, e);
    case ConnectFails => AcquireSound(g, st, e);
    case Hashed(_) => AcquireSound(g, st, e);
    case Release => AcquireSound(g, st, e);
    case _ =>
  }

  lemma LeaseKept(st: State, r: ReqId, f: Effect, c: ConnId)
    requires PoolInv(st) && Sound(st, r, f) && c in Apply(st, r, f).held
    ensures LeaseOk(Apply(st, r, f), c)
  {
    if c in st.held { assert LeaseOk(st, c); }
  }

  lemma HolderKept(st: State, r: ReqId, f: Effect, q: ReqId)
    requires PoolInv(st) && Sound(st, r, f)
    requires q in Apply(st, r, f).reqs && Apply(st, r, f).reqs[q].phase.Holds()
    ensures Holding(Apply(st, r, f), q)
  {
    if q != r {
      assert Holding(st, q) && LeaseOk(st, st.reqs[q].phase.c);
    }
  }

  lemma ApplyPool(st: State, r: ReqId, f: Effect)
    requires PoolInv(st) && Sound(st, r, f)
    ensures PoolInv(Apply(st, r, f))
  {
    var st' := Apply(st, r, f);
    forall c | c in st'.held
      ensures LeaseOk(st', c)
    {
      LeaseKept(st, r, f, c);
    }
    forall q | q in st'.reqs && st'.reqs[q].phase.Holds()
      ensures Holding(st', q)
    {
      HolderKept(st, r, f, q);
    }
  }

  lemma NextPool(g: Guard, st: State, e: Event)
    requires PoolInv(st) && Enabled(g, st, e)
    ensures PoolInv(Next(g, st, e))
  {
    EffectSound(g, st, e);
    ApplyPool(st, e.req, EffectOf(g, st, e));
  }

  lemma {:induction false} RunPool(g: Guard, st: State, evs: seq<Event>)
    requires PoolInv(st) && Valid(g, st, evs)
    ensures PoolInv(Run(g, st, evs))
    decreases |evs|
  {
    if evs == [] {
    } else {
      NextPool(g, st, evs[0]);
      RunPool(g, Next(g, st, evs[0]), evs[1..]);
    }
  }

  // ---- Hygiene -----------------------------------------------------------------------------

  lemma {:induction false} BelowSize(s: set<ConnId>, n: nat)
    requires forall c | c in s :: c < n
    ensures |s| <= n
    decreases n
  {
    if n == 0 {
    } else {
      BelowSize(s - {n - 1}, n - 1);
      if n - 1 in s { assert s == (s - {n - 1}) + {n - 1}; } else { assert s - {n - 1} == s; }
    }
  }

  ghost predicate Hygienic(st: State) {
    && (forall c | c in st.idle :: c !in st.held && st.idle[c] == CLEAN)
    && |st.held| + |st.idle| <= st.size
    && (forall c | c in st.held :: OwnSetting(st.held[c].holder, st.held[c].conn))
    && (forall c, d | c in st.held && d in st.held && st.held[c].holder == st.held[d].holder :: c == d)
  }

  /** A request's history: released as often as connected, and every `run` reported the truth. */
  ghost predicate Truthful(req: Req) {
    && (req.phase.Finished? ==> req.releases == req.connects == ConnectedRuns(req.logs))
    && (forall k | 0 <= k < |req.logs| :: LogOk(req.logs[k]))
    && (req.phase.Finished? ==> req.logs != [] && req.phase == AfterRun(req, req.logs[|req.logs| - 1].outcome))
  }

  lemma InvHygienic(st: State)
    requires PoolInv(st)
    ensures Hygienic(st)
  {
    forall c | c in st.held
      ensures c < st.size && c !in st.idle && OwnSetting(st.held[c].holder, st.held[c].conn)
      ensures st.reqs[st.held[c].holder].phase.c == c
    {
      assert LeaseOk(st, c);
    }
    HeldAndIdleFit(st.held.Keys, st.idle.Keys, st.size);
  }

  lemma HeldAndIdleFit(held: set<ConnId>, idle: set<ConnId>, size: nat)
    requires held !! idle && forall c | c in held + idle :: c < size
    ensures |held| + |idle| <= size
  {
    BelowSize(held + idle, size);
  }

  /**
   In every interleaving with any failures: idle connections carry no transaction
   and no tenant, a held one at most its holder's tenant; the pool is never
   exceeded and nobody holds two connections; a request that has ended released as
   often as it connected; and each `run` reported a value exactly when its commit
   succeeded, else the error it caught, unless rollback itself threw.
   */
  lemma Hygiene(g: Guard, size: nat, evs: seq<Event>)
    requires Valid(g, Init(size), evs)
    ensures Run(g, Init(size), evs).size == size && Hygienic(Run(g, Init(size), evs))
    ensures forall r | r in Run(g, Init(size), evs).reqs :: Truthful(Run(g, Init(size), evs).reqs[r])
  {
    RunPool(g, Init(size), evs);
    SizeKept(g, Init(size), evs);
    InvHygienic(Run(g, Init(size), evs));
    forall r | r in Run(g, Init(size), evs).reqs
      ensures Truthful(Run(g, Init(size), evs).reqs[r])
    {
      assert ReqOk(Run(g, Init(size), evs).reqs[r]);
    }
  }

  lemma {:induction false} SizeKept(g: Guard, st: State, evs: seq<Event>)
    requires Valid(g, st, evs)
    ensures Run(g, st, evs).size == st.size
    decreases |evs|
  {
    if evs == [] {
    } else {
      SizeKept(g, Next(g, st, evs[0]), evs[1..]);
    }
  }

  // ---- Progress ---------------------------------------------------------------------------------

  /** Steps a request still needs at most. */
  function Rank(req: Req): nat {
    var later := if req.kind.Register? && req.hash.None? then 8 else 0;
    match req.phase
    case Finished(_) => 0
    case Hashing => 8
    case Waiting => later + 7
    case Connected(_) => later + 6
    case Begun(_) => later + 5
    case Scoped(_) => later + 4
    case Worked(_, _) => later + 3
    case Unwinding(_, _) => later + 2
    case Releasing(_, _) => later + 1
  }

  ghost function Measure(reqs: map<ReqId, Req>): nat
    decreases |reqs|
  {
    if reqs == map[] then 0
    else
      var r :| r in reqs;
      Rank(reqs[r]) + Measure(reqs - {r})
  }

  lemma {:induction false} MeasureSplit(reqs: map<ReqId, Req>, q: ReqId)
    requires q in reqs
    ensures Measure(reqs) == Rank(reqs[q]) + Measure(reqs - {q})
    decreases |reqs|
  {
    var r :| r in reqs && Measure(reqs) == Rank(reqs[r]) + Measure(reqs - {r});
    if r != q {
      MeasureSplit(reqs - {r}, q);
      MeasureSplit(reqs - {q}, r);
      assert reqs - {r} - {q} == reqs - {q} - {r};
    }
  }

  lemma MeasureUpdate(reqs: map<ReqId, Req>, q: ReqId, req: Req)
    requires q in reqs
    ensures Measure(reqs[q := req]) + Rank(reqs[q]) == Measure(reqs) + Rank(req)
  {
    MeasureSplit(reqs, q);
    MeasureSplit(reqs[q := req], q);
    assert reqs[q := req] - {q} == reqs - {q};
  }

  /** Every step of an arrived request brings it closer to its end, faults included. */
  lemma StepDecreases(g: Guard, st: State, e: Event)
    requires Enabled(g, st, e) && !e.act.Arrive?
    ensures Measure(Next(g, st, e).reqs) < Measure(st.reqs)
  {
    MeasureUpdate(st.reqs, e.req, EffectOf(g, st, e).req);
  }

  /** The fault-free step of a request at its phase. */
  function StepOf(r: ReqId, req: Req, c: ConnId, id: Uuid): Event
    requires !req.phase.Finished?
  {
    Event(r,
          match req.phase
          case Waiting => Connect(c)
          case Connected(_) => Begin
          case Begun(_) => SetTenant
          case Scoped(_) => Work(id, 0)
          case Worked(_, _) => Commit
          case Unwinding(_, _) => Rollback
          case Releasing(_, _) => Release
          case Hashing => Hashed(""))
  }

  ghost predicate AllFinished(st: State) {
    forall r | r in st.reqs :: st.reqs[r].phase.Finished?
  }

  /**
   As long as a request is unfinished some fault-free step is enabled: whoever
   holds a connection can move on, except behind another transaction's insert, whose
   holder can; and if nobody holds one, a connection is free.
   */
  lemma SomeStepEnabled(g: Guard, st: State) returns (e: Event)
    requires PoolInv(st) && st.size > 0 && !AllFinished(st)
    ensures Enabled(g, st, e) && !e.act.Arrive? && !IsFault(e.act)
  {
    var r :| r in st.reqs && !st.reqs[r].phase.Finished?;
    if st.reqs[r].phase.Waiting? && st.held != map[] {
      var c :| c in st.held;
      assert LeaseOk(st, c);
      e := HolderCanStep(g, st, st.held[c].holder);
    } else if st.reqs[r].phase.Holds() {
      e := HolderCanStep(g, st, r);
    } else {
      e := StepOf(r, st.reqs[r], 0, 0);
    }
  }

  lemma HolderCanStep(g: Guard, st: State, r: ReqId) returns (e: Event)
    requires PoolInv(st) && Holding(st, r)
    ensures Enabled(g, st, e) && !e.act.Arrive? && !IsFault(e.act)
  {
    var id := FreshUuid(st.drawn);
    var q := r;
    if st.reqs[r].phase.Scoped? && WaitsForInsert(g, st, r, st.reqs[r], st.held[st.reqs[r].phase.c].conn.setting) {
      var c :| c in st.held && st.held[c].holder != r && st.held[c].conn.user.Some?;
      assert LeaseOk(st, c);
      q := st.held[c].holder;
    }
    e := StepOf(q, st.reqs[q], 0, id);
  }

  /** Without new arrivals a run cannot be longer than the measure it starts from. */
  lemma {:induction false} RunsAreBounded(g: Guard, st: State, evs: seq<Event>)
    requires Valid(g, st, evs) && forall k | 0 <= k < |evs| :: !evs[k].act.Arrive?
    ensures |evs| + Measure(Run(g, st, evs).reqs) <= Measure(st.reqs)
    decreases |evs|
  {
    if evs == [] {
    } else {
      StepDecreases(g, st, evs[0]);
      RunsAreBounded(g, Next(g, st, evs[0]), evs[1..]);
    }
  }

  /** From every reachable state all requests can finish, in at most that many steps. */
  lemma {:induction false} EverybodyCanFinish(g: Guard, st: State) returns (evs: seq<Event>)
    requires PoolInv(st) && st.size > 0
    ensures Valid(g, st, evs) && (forall k | 0 <= k < |evs| :: !evs[k].act.Arrive? && !IsFault(evs[k].act))
    ensures AllFinished(Run(g, st, evs)) && |evs| <= Measure(st.reqs)
    decreases Measure(st.reqs)
  {
    if AllFinished(st) {
      evs := [];
    } else {
      var e := SomeStepEnabled(g, st);
      StepDecreases(g, st, e);
      NextPool(g, st, e);
      var rest := EverybodyCanFinish(g, Next(g, st, e));
      evs := [e] + rest;
      assert evs[1..] == rest;
    }
  }

  /** Nothing but arrivals and failures is enabled exactly when everybody has finished. */
  lemma StuckIffFinished(g: Guard, st: State)
    requires PoolInv(st) && st.size > 0
    ensures AllFinished(st) <==> forall e | Enabled(g, st, e) :: e.act.Arrive? || IsFault(e.act)
  {
    if !AllFinished(st) {
      var e := SomeStepEnabled(g, st);
    }
  }

  /**
   Pool progress: from any reachable state with any number of waiting requests, every
   run without arrivals is finite, and one that could continue only by failing has
   finished everybody.
   */
  lemma PoolProgress(g: Guard, size: nat, before: seq<Event>, st: State, evs: seq<Event>, end: State)
    requires size > 0 && Valid(g, Init(size), before) && st == Run(g, Init(size), before)
    requires Valid(g, st, evs) && end == Run(g, st, evs)
    requires forall k | 0 <= k < |evs| :: !evs[k].act.Arrive?
    ensures |evs| <= Measure(st.reqs)
    ensures AllFinished(end) <==> forall e | Enabled(g, end, e) :: e.act.Arrive? || IsFault(e.act)
  {
    RunPool(g, Init(size), before);
    RunPool(g, st, evs);
    SizeKept(g, Init(size), before);
    SizeKept(g, st, evs);
    RunsAreBounded(g, st, evs);
    StuckIffFinished(g, end);
  }
}
