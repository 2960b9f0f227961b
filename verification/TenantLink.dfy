/**
 `TenantTransaction.run` alone is one schedule of the pool machine: for every
 choice of failures the machine, running that request's steps only, ends the run
 with the very outcome and tables the method's contract names.
 */
module TenantLink {
  import opened Prelude
  import opened TenantTables
  import opened TenantMachine
  import opened PoolTheorems
  import opened TenantTransactions

  lemma OneEvent(g: Guard, st: State, e: Event)
    requires Enabled(g, st, e)
    ensures Valid(g, st, [e]) && Run(g, st, [e]) == Next(g, st, e)
  {
    assert [e][1..] == [];
    assert Valid(g, Next(g, st, e), []);
  }

  lemma {:induction false} Append(g: Guard, st: State, a: seq<Event>, b: seq<Event>)
    requires Valid(g, st, a) && Valid(g, Run(g, st, a), b)
    ensures Valid(g, st, a + b) && Run(g, st, a + b) == Run(g, Run(g, st, a), b)
    decreases |a|
  {
    if a == [] {
      assert a + b == b;
    } else {
      Append(g, Next(g, st, a[0]), a[1..], b);
      assert (a + b)[1..] == a[1..] + b;
    }
  }

  lemma Extend(g: Guard, st: State, evs: seq<Event>, e: Event)
    requires Valid(g, st, evs) && Enabled(g, Run(g, st, evs), e)
    ensures Valid(g, st, evs + [e]) && Run(g, st, evs + [e]) == Next(g, Run(g, st, evs), e)
  {
    OneEvent(g, Run(g, st, evs), e);
    Append(g, st, evs, [e]);
  }

  function Rows<T>(row: Option<T>): seq<T> {
    if row.Some? then [row.value] else []
  }

  /** `end` is `st` after `r`'s run ended with `outcome`, everything else as it was. */
  ghost predicate Ran(st: State, end: State, r: ReqId, outcome: Outcome, user: Option<UserRow>, note: Option<NoteRow>)
    requires r in st.reqs
  {
    && r in end.reqs && end.reqs[r].phase == AfterRun(st.reqs[r], outcome)
    && end.users == st.users + Rows(user) && end.notes == st.notes + Rows(note)
    && end.held == st.held
  }

  /** `s` is `st` with `r` at `phase` on connection `c`, nothing written yet. */
  ghost predicate At(st: State, s: State, r: ReqId, c: ConnId, conn: Conn, phase: Phase)
    requires r in st.reqs
  {
    && c !in st.held && s.held == st.held[c := Lease(r, conn)]
    && r in s.reqs && s.reqs[r].phase == phase
    && s.reqs[r].kind == st.reqs[r].kind && s.reqs[r].hash == st.reqs[r].hash
    && s.users == st.users && s.notes == st.notes && s.drawn == st.drawn
    && (phase.Holds() ==> phase.c == c)
  }

  /** Where the try block leaves request `r`. */
  ghost predicate Tried(st: State, s: State, r: ReqId, c: ConnId, faults: Faults, p: Performed)
    requires r in st.reqs
  {
    && c !in st.held && c in s.held && s.held == st.held[c := Lease(r, s.held[c].conn)]
    && r in s.reqs && s.reqs[r].kind == st.reqs[r].kind && s.reqs[r].hash == st.reqs[r].hash
    && match FirstError(faults, p)
       case None =>
         && s.reqs[r].phase == Releasing(c, RunLog(true, true, None, false, Returned(p.value)))
         && s.users == st.users + Rows(p.user) && s.notes == st.notes + Rows(p.note)
       case Some(error) =>
         && s.users == st.users && s.notes == st.notes
         && s.reqs[r].phase
            == if RollsBack(faults, p) then Unwinding(c, error)
               else Releasing(c, RunLog(true, false, Some(error), false, Threw(error)))
  }

  /** Steps of this request alone, failing only where `faults` says so. */
  ghost predicate StepsOf(st: State, r: ReqId, faults: Faults, evs: seq<Event>) {
    Valid(Rls, st, evs) && forall k | 0 <= k < |evs| :: evs[k].req == r && Foreseen(faults, evs[k].act)
  }

  predicate Foreseen(faults: Faults, a: Action) {
    match a
    case ConnectFails => faults.connect
    case BeginFails(sent, _) => faults.begin && sent == faults.beginSent
    case SetTenantFails => faults.setting
    case WorkFails => faults.work
    case CommitFails => faults.commit
    case RollbackFails => faults.rollback
    case _ => true
  }

  lemma BeginStep(st: State, s: State, r: ReqId, c: ConnId, faults: Faults, p: Performed) returns (e: Event)
    requires r in st.reqs && At(st, s, r, c, CLEAN, Connected(c))
    ensures e.req == r && Enabled(Rls, s, e) && Foreseen(faults, e.act)
    ensures if faults.begin then Tried(st, Next(Rls, s, e), r, c, faults, p)
            else At(st, Next(Rls, s, e), r, c, CLEAN.(txOpen := true), Begun(c))
  {
    e := Event(r, if faults.begin then BeginFails(faults.beginSent, false) else Begin);
    assert Holding(s, r);
  }

  lemma SettingStep(st: State, s: State, r: ReqId, c: ConnId, faults: Faults, p: Performed) returns (e: Event)
    requires r in st.reqs && At(st, s, r, c, CLEAN.(txOpen := true), Begun(c)) && !faults.begin
    ensures e.req == r && Enabled(Rls, s, e) && Foreseen(faults, e.act)
    ensures if faults.setting then Tried(st, Next(Rls, s, e), r, c, faults, p)
            else At(st, Next(Rls, s, e), r, c, Conn(true, Some(r.tenant), None, None), Scoped(c))
  {
    e := Event(r, if faults.setting then SetTenantFails else SetTenant);
    assert Holding(s, r);
  }

  lemma WorkStep(st: State, s: State, r: ReqId, c: ConnId, id: Uuid, at: nat, faults: Faults, p: Performed)
    returns (e: Event)
    requires r in st.reqs && At(st, s, r, c, Conn(true, Some(r.tenant), None, None), Scoped(c))
    requires !faults.begin && !faults.setting
    requires id !in st.drawn && !WaitsForInsert(Rls, st, r, st.reqs[r], Some(r.tenant))
    requires p == Perform(Rls, st, r, st.reqs[r], Some(r.tenant), id, at)
    ensures e.req == r && Enabled(Rls, s, e) && Foreseen(faults, e.act)
    ensures var s' := Next(Rls, s, e);
      if faults.work || p.Fails? then Tried(st, s', r, c, faults, p)
      else At(st, s'.(drawn := st.drawn), r, c, Conn(true, Some(r.tenant), p.user, p.note), Worked(c, p.value))
  {
    e := Event(r, if faults.work then WorkFails else Work(id, at));
    assert Holding(s, r);
    assert Perform(Rls, s, r, s.reqs[r], Some(r.tenant), id, at) == p;
  }

  lemma CommitStep(st: State, s: State, r: ReqId, c: ConnId, faults: Faults, p: Performed) returns (e: Event)
    requires r in st.reqs && p.Done? && !faults.begin && !faults.setting && !faults.work
    requires At(st, s.(drawn := st.drawn), r, c, Conn(true, Some(r.tenant), p.user, p.note), Worked(c, p.value))
    ensures e.req == r && Enabled(Rls, s, e) && Foreseen(faults, e.act)
    ensures Tried(st, Next(Rls, s, e), r, c, faults, p)
  {
    e := Event(r, if faults.commit then CommitFails else Commit);
    assert Holding(s, r);
  }

  lemma Then(st: State, r: ReqId, faults: Faults, evs: seq<Event>, e: Event) returns (longer: seq<Event>)
    requires StepsOf(st, r, faults, evs) && e.req == r && Enabled(Rls, Run(Rls, st, evs), e) && Foreseen(faults, e.act)
    ensures StepsOf(st, r, faults, longer) && Run(Rls, st, longer) == Next(Rls, Run(Rls, st, evs), e)
  {
    Extend(Rls, st, evs, e);
    longer := evs + [e];
  }

  lemma TrySteps(st: State, s: State, r: ReqId, c: ConnId, id: Uuid, at: nat, faults: Faults, p: Performed)
    returns (evs: seq<Event>)
    requires r in st.reqs && At(st, s, r, c, CLEAN, Connected(c))
    requires id !in st.drawn && !WaitsForInsert(Rls, st, r, st.reqs[r], Some(r.tenant))
    requires p == Perform(Rls, st, r, st.reqs[r], Some(r.tenant), id, at)
    ensures StepsOf(s, r, faults, evs) && Tried(st, Run(Rls, s, evs), r, c, faults, p)
  {
    evs := [];
    var e := BeginStep(st, s, r, c, faults, p);
    evs := Then(s, r, faults, evs, e);
    if faults.begin { return; }
    e := SettingStep(st, Run(Rls, s, evs), r, c, faults, p);
    evs := Then(s, r, faults, evs, e);
    if faults.setting { return; }
    e := WorkStep(st, Run(Rls, s, evs), r, c, id, at, faults, p);
    evs := Then(s, r, faults, evs, e);
    if faults.work || p.Fails? { return; }
    e := CommitStep(st, Run(Rls, s, evs), r, c, faults, p);
    evs := Then(s, r, faults, evs, e);
  }

  lemma RollbackStep(st: State, s: State, r: ReqId, c: ConnId, faults: Faults, p: Performed) returns (e: Event)
    requires r in st.reqs && Tried(st, s, r, c, faults, p) && s.reqs[r].phase.Unwinding?
    ensures e.req == r && Enabled(Rls, s, e) && Foreseen(faults, e.act)
    ensures At(st, Next(Rls, s, e).(drawn := st.drawn), r, c,
               if faults.rollback then s.held[c].conn else CLEAN,
               Releasing(c, RunLog(true, false, Some(s.reqs[r].phase.error), faults.rollback,
                                   Threw(if faults.rollback then RollbackError else s.reqs[r].phase.error))))
  {
    e := Event(r, if faults.rollback then RollbackFails else Rollback);
    assert Holding(s, r);
  }

  lemma ReleaseStep(st: State, s: State, r: ReqId, c: ConnId)
    requires r in st.reqs && c !in st.held && c in s.held && s.held == st.held[c := Lease(r, s.held[c].conn)]
    requires r in s.reqs && s.reqs[r].phase.Releasing? && s.reqs[r].phase.c == c
    requires s.reqs[r].kind == st.reqs[r].kind && s.reqs[r].hash == st.reqs[r].hash
    ensures Enabled(Rls, s, Event(r, Release))
    ensures var end := Next(Rls, s, Event(r, Release));
      && r in end.reqs && end.reqs[r].phase == AfterRun(st.reqs[r], s.reqs[r].phase.log.outcome)
      && end.users == s.users && end.notes == s.notes && end.held == st.held
  {
    assert Holding(s, r);
  }

  lemma FinallySteps(st: State, s: State, r: ReqId, c: ConnId, faults: Faults, p: Performed, outcome: Outcome)
    returns (evs: seq<Event>)
    requires r in st.reqs && !faults.connect && Tried(st, s, r, c, faults, p)
    requires outcome == RunOutcome(Some(r.tenant), faults, p)
    ensures StepsOf(s, r, faults, evs)
    ensures Ran(st, Run(Rls, s, evs), r, outcome,
                if outcome.Returned? then p.user else None, if outcome.Returned? then p.note else None)
  {
    evs := [];
    if s.reqs[r].phase.Unwinding? {
      var e := RollbackStep(st, s, r, c, faults, p);
      evs := Then(s, r, faults, evs, e);
    }
    ReleaseStep(st, Run(Rls, s, evs), r, c);
    evs := Then(s, r, faults, evs, Event(r, Release));
  }

  lemma ConnectStep(st: State, r: ReqId, c: ConnId)
    requires PoolInv(st) && r in st.reqs && st.reqs[r].phase.Waiting? && c < st.size && c !in st.held
    ensures Enabled(Rls, st, Event(r, Connect(c)))
    ensures At(st, Next(Rls, st, Event(r, Connect(c))), r, c, CLEAN, Connected(c))
  {
  }

  /** The machine running one request's steps alone agrees with the method's contract. */
  lemma RunIsOneSchedule(st: State, r: ReqId, c: ConnId, id: Uuid, at: nat, faults: Faults, outcome: Outcome)
    returns (evs: seq<Event>)
    requires PoolInv(st) && r in st.reqs && st.reqs[r].phase.Waiting? && c < st.size && c !in st.held
    requires id !in st.drawn && !WaitsForInsert(Rls, st, r, st.reqs[r], Some(r.tenant))
    requires outcome == RunOutcome(Some(r.tenant), faults, Perform(Rls, st, r, st.reqs[r], Some(r.tenant), id, at))
    ensures StepsOf(st, r, faults, evs)
    ensures var p := Perform(Rls, st, r, st.reqs[r], Some(r.tenant), id, at);
      Ran(st, Run(Rls, st, evs), r, outcome,
          if outcome.Returned? then p.user else None, if outcome.Returned? then p.note else None)
  {
    var p := Perform(Rls, st, r, st.reqs[r], Some(r.tenant), id, at);
    if faults.connect {
      evs := Then(st, r, faults, [], Event(r, ConnectFails));
    } else {
      ConnectStep(st, r, c);
      evs := Then(st, r, faults, [], Event(r, Connect(c)));
      var rest := AfterConnect(st, Run(Rls, st, evs), r, c, id, at, faults, p, outcome);
      Append(Rls, st, evs, rest);
      evs := evs + rest;
    }
  }

  lemma AfterConnect(st: State, s: State, r: ReqId, c: ConnId, id: Uuid, at: nat, faults: Faults, p: Performed,
      outcome: Outcome)
    returns (evs: seq<Event>)
    requires r in st.reqs && At(st, s, r, c, CLEAN, Connected(c)) && !faults.connect
    requires id !in st.drawn && !WaitsForInsert(Rls, st, r, st.reqs[r], Some(r.tenant))
    requires p == Perform(Rls, st, r, st.reqs[r], Some(r.tenant), id, at)
    requires outcome == RunOutcome(Some(r.tenant), faults, p)
    ensures StepsOf(s, r, faults, evs)
    ensures Ran(st, Run(Rls, s, evs), r, outcome,
                if outcome.Returned? then p.user else None, if outcome.Returned? then p.note else None)
  {
    var body := TrySteps(st, s, r, c, id, at, faults, p);
    var rest := FinallySteps(st, Run(Rls, s, body), r, c, faults, p, outcome);
    Append(Rls, s, body, rest);
    evs := body + rest;
  }
}
