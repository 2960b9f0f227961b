/**
 The serial meaning of a request is what the step machine does when nothing else
 runs: `Serve` refines to an uninterrupted schedule of steps.
 */
module AuthLink {
  import opened Prelude
  import opened Tokens
  import opened RefreshTokens
  import opened AuthSteps
  import opened AuthInvariant
  import opened AuthTheorems
  import opened AuthReuse
  import opened AuthSuccessors
  import opened AuthSerial

  function StoreOf(st: State): Store {
    Store(st.now, st.rows, st.minted, st.accessSigned)
  }

  lemma Extend(cfg: Config, st: State, evs: seq<Event>, e: Event)
    requires Valid(cfg, st, evs) && Enabled(Run(cfg, st, evs), e)
    ensures Valid(cfg, st, evs + [e]) && Run(cfg, st, evs + [e]) == Next(cfg, Run(cfg, st, evs), e)
  {
    OneEvent(cfg, Run(cfg, st, evs), e);
    ValidAppend(cfg, st, evs, [e]);
  }

  /** The state after flow `f` finished alone with the given reply. */
  ghost predicate Replied(st: State, end: State, f: FlowId, reply: Reply) {
    StoreOf(end) == reply.store && end.flows == map[] && end.done == st.done[f := reply.outcome]
  }

  /** No database operation fails in these steps. */
  ghost predicate NoFail(evs: seq<Event>) {
    forall k | 0 <= k < |evs| :: !evs[k].Fail?
  }

  /** The only flow fails: nothing more is written. */
  lemma FailsAlone(cfg: Config, st: State, f: FlowId, flow: Flow)
    requires st.flows == map[f := flow]
    ensures Valid(cfg, st, [Fail(f)])
    ensures Replied(st, Run(cfg, st, [Fail(f)]), f, Reply(StoreOf(st), FailureOf(flow)))
  {
    OneEvent(cfg, st, Fail(f));
  }

  /** Running the remaining steps of an issuing flow alone amounts to `Issue`. */
  lemma IssueAlone(cfg: Config, st: State, f: FlowId, claims: Claims, origin: Origin, jti: Uuid, fault: Fault)
    returns (evs: seq<Event>)
    requires st.flows == map[f := Issuing(claims, origin)] && jti !in st.minted && f !in st.done
    ensures Valid(cfg, st, evs) && (fault == NoFault ==> NoFail(evs))
    ensures Replied(st, Run(cfg, st, evs), f,
                    Issue(cfg, StoreOf(st), claims, jti, if origin.Rotation? then Some(origin.parent) else None, fault))
  {
    var e0, e1 := SignAccess(f), SignRefresh(f, jti);
    OneEvent(cfg, st, e0);
    Extend(cfg, st, [e0], e1);
    evs := [e0] + [e1];
    var access, refresh := IssuedAccess(cfg, StoreOf(st), claims), IssuedRefresh(cfg, StoreOf(st), claims, jti);
    var flow := HasRefresh(claims, origin, access, refresh);
    var mid := Run(cfg, st, evs);
    assert mid.flows == map[f := flow];
    var rest := [Fail(f)];
    if fault.WriteFault? {
      FailsAlone(cfg, mid, f, flow);
    } else {
      rest := StoreAlone(cfg, mid, f, claims, origin, access, refresh);
    }
    ValidAppend(cfg, st, evs, rest);
    evs := evs + rest;
  }

  /** A rotation's transaction alone: both writes at its commit. */
  lemma RotateAlone(cfg: Config, st: State, f: FlowId, claims: Claims, origin: Origin, access: AccessJwt,
      refresh: RefreshJwt)
    returns (evs: seq<Event>)
    requires st.flows == map[f := HasRefresh(claims, origin, access, refresh)] && f !in st.done && origin.Rotation?
    ensures Valid(cfg, st, evs) && NoFail(evs)
    ensures var row := RowFor(refresh, st.now, cfg.rowLifetime);
      Replied(st, Run(cfg, st, evs), f,
              Reply(StoreOf(st).(rows := Rotated(st.rows, row, origin.parent, st.now)), Granted(access, refresh)))
  {
    var row := RowFor(refresh, st.now, cfg.rowLifetime);
    var st1 := Next(cfg, st, InsertRow(f));
    OneEvent(cfg, st, InsertRow(f));
    var inserted := RowInserted(claims, origin, access, refresh, row);
    assert st1 == st.(step := st.step + 1, flows := map[f := inserted]);
    var st2 := Next(cfg, st1, ReplaceRow(f));
    Extend(cfg, st, [InsertRow(f)], ReplaceRow(f));
    var replaced := RowReplaced(claims, origin, access, refresh, row, st.now);
    assert st2 == st.(step := st.step + 2, flows := map[f := replaced]);
    Extend(cfg, st, [InsertRow(f)] + [ReplaceRow(f)], CommitRotation(f));
    evs := [InsertRow(f)] + [ReplaceRow(f)] + [CommitRotation(f)];
    CommitAlone(cfg, st2, f, replaced);
  }

  lemma CommitAlone(cfg: Config, st: State, f: FlowId, flow: Flow)
    requires st.flows == map[f := flow] && flow.RowReplaced? && flow.replacedAt == st.now
    requires f !in st.done && flow.origin.Rotation?
    ensures Replied(st, Next(cfg, st, CommitRotation(f)), f,
                    Reply(StoreOf(st).(rows := Rotated(st.rows, flow.row, flow.origin.parent, st.now)),
                          Granted(flow.access, flow.refresh)))
  {
  }

  lemma StoreAlone(cfg: Config, st: State, f: FlowId, claims: Claims, origin: Origin, access: AccessJwt,
      refresh: RefreshJwt)
    returns (evs: seq<Event>)
    requires st.flows == map[f := HasRefresh(claims, origin, access, refresh)] && f !in st.done
    ensures Valid(cfg, st, evs) && NoFail(evs)
    ensures var row := RowFor(refresh, st.now, cfg.rowLifetime);
      var rows := if origin.Rotation? then Rotated(st.rows, row, origin.parent, st.now) else Inserted(st.rows, row);
      Replied(st, Run(cfg, st, evs), f, Reply(StoreOf(st).(rows := rows), Granted(access, refresh)))
  {
    if origin.Login? {
      evs := [CreateRow(f)];
      OneEvent(cfg, st, CreateRow(f));
    } else {
      evs := RotateAlone(cfg, st, f, claims, origin, access, refresh);
    }
  }

  /** The revoke-all of a refused refresh, nothing overtaking it. */
  lemma KillAlone(cfg: Config, st: State, f: FlowId, user: Uuid, reason: Reason, fault: Fault) returns (evs: seq<Event>)
    requires st.flows == map[f := Killing(user, reason)] && f !in st.done
    ensures Valid(cfg, st, evs) && (fault == NoFault ==> NoFail(evs))
    ensures Replied(st, Run(cfg, st, evs), f,
                    Refuse(StoreOf(st), user, if reason.Reused? then AlreadyUsed else HashMismatch, fault))
  {
    if fault.WriteFault? {
      evs := [Fail(f)];
      FailsAlone(cfg, st, f, Killing(user, reason));
    } else {
      OneEvent(cfg, st, FindAll(f));
      var st1 := Next(cfg, st, FindAll(f));
      var revoking := Revoking(user, reason, ActiveRows(st.rows, user), st.step);
      assert st1 == st.(step := st.step + 1, flows := map[f := revoking]);
      Extend(cfg, st, [FindAll(f)], RevokeAll(f));
      evs := [FindAll(f)] + [RevokeAll(f)];
      StampedAtOnce(st.rows, user, st.now);
    }
  }

  /** Reading alone: to the checks' verdict, still at the same instant. */
  lemma ReadAlone(cfg: Config, st: State, f: FlowId, token: RefreshJwt, jti: Uuid, fault: Fault)
    returns (evs: seq<Event>)
    requires st.flows == map[f := Verified(token)] && f !in st.done && Verifies(st, token) && jti !in st.minted
    requires token.jti in st.rows ==> st.rows[token.jti].id == token.jti
    ensures Valid(cfg, st, evs) && (fault == NoFault ==> NoFail(evs))
    ensures Replied(st, Run(cfg, st, evs), f, Answer(cfg, StoreOf(st), Refresh(token, jti), fault))
  {
    if fault.ReadFault? {
      evs := [Fail(f)];
      FailsAlone(cfg, st, f, Verified(token));
    } else {
      OneEvent(cfg, st, Read(f));
      var mid, move := Next(cfg, st, Read(f)), AfterRead(st, token);
      evs := [Read(f)];
      if move.Continue? {
        assert mid == st.(step := st.step + 1, flows := map[f := move.flow]);
        var rest;
        if move.flow.Killing? {
          rest := KillAlone(cfg, mid, f, move.flow.userId, move.flow.reason, fault);
        } else {
          rest := IssueAlone(cfg, mid, f, token.claims, move.flow.origin, jti, fault);
        }
        ValidAppend(cfg, st, evs, rest);
        evs := evs + rest;
      }
    }
  }

  lemma LogInAlone(cfg: Config, st: State, f: FlowId, user: User, jti: Uuid, fault: Fault) returns (evs: seq<Event>)
    requires st.flows == map[] && NewFlow(st, f) && jti !in st.minted
    ensures Valid(cfg, st, evs) && (fault == NoFault ==> NoFail(evs))
    ensures Replied(st, Run(cfg, st, evs), f, Answer(cfg, StoreOf(st), LogIn(user, jti), fault))
  {
    var e := StartLogin(f, user);
    OneEvent(cfg, st, e);
    assert Next(cfg, st, e).flows == map[f := Issuing(ClaimsOf(user), Login(user))];
    var rest := IssueAlone(cfg, Next(cfg, st, e), f, ClaimsOf(user), Login(user), jti, fault);
    ValidAppend(cfg, st, [e], rest);
    evs := [e] + rest;
  }

  lemma RefreshAlone(cfg: Config, st: State, f: FlowId, token: Token, jti: Uuid, fault: Fault) returns (evs: seq<Event>)
    requires st.flows == map[] && NewFlow(st, f) && jti !in st.minted
    requires forall i | i in st.rows :: st.rows[i].id == i
    ensures Valid(cfg, st, evs) && (fault == NoFault ==> NoFail(evs))
    ensures Replied(st, Run(cfg, st, evs), f, Answer(cfg, StoreOf(st), Refresh(token, jti), fault))
  {
    var e := StartRefresh(f, token);
    evs := [e];
    OneEvent(cfg, st, e);
    if Verifies(st, token) {
      var mid := Next(cfg, st, e);
      assert mid == st.(step := st.step + 1, flows := map[f := Verified(token)]);
      var rest := ReadAlone(cfg, mid, f, token, jti, fault);
      ValidAppend(cfg, st, evs, rest);
      evs := evs + rest;
    }
  }

  lemma LogOutAlone(cfg: Config, st: State, f: FlowId, token: Token, fault: Fault) returns (evs: seq<Event>)
    requires st.flows == map[] && NewFlow(st, f)
    ensures Valid(cfg, st, evs) && (fault == NoFault ==> NoFail(evs))
    ensures Replied(st, Run(cfg, st, evs), f, Answer(cfg, StoreOf(st), LogOut(token), fault))
  {
    var e := StartLogout(f, token);
    evs := [e];
    OneEvent(cfg, st, e);
    if Verifies(st, token) {
      var last := if fault.WriteFault? then Fail(f) else RevokeOne(f);
      assert Next(cfg, st, e).flows == map[f := LoggingOut(token.jti)];
      Extend(cfg, st, evs, last);
      evs := evs + [last];
    }
  }

  lemma BodyAlone(cfg: Config, st: State, f: FlowId, body: Body, fault: Fault) returns (evs: seq<Event>)
    requires RowInv(st) && MintInv(st) && st.flows == map[] && NewFlow(st, f)
    requires Draws(StoreOf(st), Request(0, body, fault))
    ensures Valid(cfg, st, evs) && (fault == NoFault ==> NoFail(evs))
    ensures Replied(st, Run(cfg, st, evs), f, Answer(cfg, StoreOf(st), body, fault))
  {
    match body
    case LogIn(user, jti) => evs := LogInAlone(cfg, st, f, user, jti, fault);
    case Refresh(token, jti) =>
      assert forall i | i in st.rows :: RowMatches(st.rows[i], st.minted[i]);
      evs := RefreshAlone(cfg, st, f, token, jti, fault);
    case LogOut(token) => evs := LogOutAlone(cfg, st, f, token, fault);
  }

  /** Waiting alone. */
  lemma WaitThenServe(cfg: Config, st: State, req: Request)
    ensures var mid := Next(cfg, st, Tick(req.wait));
      && Answer(cfg, StoreOf(mid), req.body, req.fault) == Serve(cfg, StoreOf(st), req)
      && mid.flows == st.flows && mid.done == st.done && mid.minted == st.minted
  {
    assert StoreOf(Next(cfg, st, Tick(req.wait))) == StoreOf(st).(now := st.now + req.wait);
  }

  /**
   One request served without overlap, failing or not, as steps of the machine, none of
   them a failure if the request has none.
   */
  lemma {:induction false} MachineServes(cfg: Config, st: State, f: FlowId, req: Request) returns (evs: seq<Event>)
    requires cfg.Valid() && Inv(cfg, st) && st.flows == map[] && NewFlow(st, f) && Draws(StoreOf(st), req)
    ensures Valid(cfg, st, evs) && (req.fault == NoFault ==> NoFail(evs))
    ensures Inv(cfg, Run(cfg, st, evs))
    ensures Replied(st, Run(cfg, st, evs), f, Serve(cfg, StoreOf(st), req))
  {
    var e := Tick(req.wait);
    OneEvent(cfg, st, e);
    NextInv(cfg, st, e);
    WaitThenServe(cfg, st, req);
    var rest := BodyAlone(cfg, Next(cfg, st, e), f, req.body, req.fault);
    ValidAppend(cfg, st, [e], rest);
    evs := [e] + rest;
    RunInv(cfg, st, evs);
  }

  /** A whole serial history is one run of the step machine, so the interleaving theorems speak of it too. */
  lemma {:induction false} MachineServesAll(cfg: Config, st: State, reqs: seq<Request>) returns (evs: seq<Event>)
    requires cfg.Valid() && Inv(cfg, st) && st.flows == map[] && Served(cfg, StoreOf(st), reqs)
    ensures Valid(cfg, st, evs)
    ensures (forall k | 0 <= k < |reqs| :: reqs[k].fault == NoFault) ==> NoFail(evs)
    ensures StoreOf(Run(cfg, st, evs)) == ServeAll(cfg, StoreOf(st), reqs) && Run(cfg, st, evs).flows == map[]
    decreases |reqs|
  {
    if reqs == [] {
      evs := [];
    } else {
      var f := FreshUuid(st.done.Keys);
      evs := MachineServes(cfg, st, f, reqs[0]);
      var rest := MachineServesAll(cfg, Run(cfg, st, evs), reqs[1..]);
      ValidAppend(cfg, st, evs, rest);
      evs := evs + rest;
    }
  }

  // ---- Acceptable tokens exist ---------------------------------------------------------

  /** `refresh` would find this token's row active. */
  ghost predicate Acceptable(st: State, token: Token) {
    Verifies(st, token) && token.jti in st.rows && st.rows[token.jti].Active()
  }

  /** One login from the start leaves an acceptable token, if refresh tokens live a second at least. */
  lemma LoginYieldsAcceptable(cfg: Config, user: User) returns (st: State, token: RefreshJwt)
    requires cfg.Valid() && cfg.refreshSpan >= 1_000
    ensures Reachable(cfg, st) && Acceptable(st, token) && token.claims == ClaimsOf(user) && st.flows == map[]
  {
    var evs := MachineServes(cfg, INIT, 0, Request(0, LogIn(user, 0), NoFault));
    st, token := Run(cfg, INIT, evs), RefreshToken(ClaimsOf(user), 0, ExpOf(0, cfg.refreshSpan));
    assert StoreOf(INIT).(now := 0) == StoreOf(INIT);
    assert Serve(cfg, StoreOf(INIT), Request(0, LogIn(user, 0), NoFault))
        == Issue(cfg, StoreOf(INIT), ClaimsOf(user), 0, None, NoFault);
  }

  /** Some reachable state has an acceptable token exactly when refresh tokens live a second at least. */
  lemma AcceptableTokensExistIff(cfg: Config)
    requires cfg.Valid()
    ensures (exists st, token :: Reachable(cfg, st) && Acceptable(st, token)) <==> cfg.refreshSpan >= 1_000
  {
    if cfg.refreshSpan >= 1_000 {
      var st, token := LoginYieldsAcceptable(cfg, User(0, 0, Member, ""));
    } else {
      forall st, token | Reachable(cfg, st)
        ensures !Acceptable(st, token)
      {
        TokensExpire(cfg, st);
      }
    }
  }

  /**
   So the failure of finality is real: a login, three overlapping refreshes of its
   token, one of them a replay whose revoke-all leaves no active row, and one more row
   to come.
   */
  lemma RevokeAllNotFinal(cfg: Config, user: User) returns (st: State, h: FlowId)
    requires cfg.Valid() && cfg.refreshSpan >= 1_000
    ensures Reachable(cfg, st) && Enabled(st, RevokeAll(h))
    ensures var end := Next(cfg, st, RevokeAll(h));
      && h in end.done && end.done[h] == AlreadyUsed
      && NoneActive(end.rows, user.id) && InFlight(end, user.id) && !Final(cfg, end, user.id)
  {
    var start, token := LoginYieldsAcceptable(cfg, user);
    var f := FreshUuid(start.done.Keys);
    var evs := ReplayMissesRefreshInFlight(cfg, start, token, f, f + 1, f + 2);
    ReachableLater(cfg, start, evs);
    st, h := Run(cfg, start, evs), f + 2;
  }
}
