/**
 How many successors a row can get when requests interleave: the rotation's update
 is keyed by id only, so refreshes that overlap fork the chain. The exact condition
 under which a row never gets a second successor, and a revoke-all that misses one.
 */
module AuthSuccessors {
  import opened Prelude
  import opened Tokens
  import opened RefreshTokens
  import opened AuthSteps
  import opened AuthInvariant
  import opened AuthTheorems
  import opened AuthReuse

  /** Two successors of one row: each rotation had read the row before the other's commit. */
  lemma SuccessorsOverlap(cfg: Config, st: State, p: Uuid, c: Uuid, d: Uuid)
    requires cfg.Valid() && Reachable(cfg, st) && ChildOf(st, c, p) && ChildOf(st, d, p)
    ensures st.birth[c].origin.readAt < st.birth[d].at && st.birth[d].origin.readAt < st.birth[c].at
  {
    ReachableInv(cfg, st);
  }

  /** The read half of a refresh of an active row leads past the checks. */
  lemma ReadPasses(cfg: Config, st: State, f: FlowId, token: RefreshJwt) returns (evs: seq<Event>)
    requires NewFlow(st, f) && Verifies(st, token)
    requires token.jti in st.rows && st.rows[token.jti].Active()
    requires st.rows[token.jti].id == token.jti && st.rows[token.jti].tokenHash == Sha256(token)
    ensures Valid(cfg, st, evs)
    ensures var end := Run(cfg, st, evs);
      && end.flows == st.flows[f := Issuing(token.claims, Rotation(token.jti, st.step + 1))]
      && end.rows == st.rows && end.birth == st.birth && end.done == st.done && end.now == st.now
          && end.minted == st.minted
  {
    var e0, e1 := StartRefresh(f, token), Read(f);
    var st1 := Next(cfg, st, e0);
    OneEvent(cfg, st, e0);
    OneEvent(cfg, st1, e1);
    ValidAppend(cfg, st, [e0], [e1]);
    evs := [e0] + [e1];
    assert st1.flows[f] == Verified(token);
  }

  lemma RowOfToken(cfg: Config, st: State, token: RefreshJwt)
    requires Inv(cfg, st) && Verifies(st, token) && token.jti in st.rows
    ensures st.rows[token.jti].id == token.jti && st.rows[token.jti].tokenHash == Sha256(token)
  {
  }

  /** Two refreshes of an active row's token both pass their checks. */
  lemma BothPass(cfg: Config, st: State, token: RefreshJwt, f: FlowId, g: FlowId) returns (evs: seq<Event>)
    requires cfg.Valid() && Inv(cfg, st) && Verifies(st, token)
    requires token.jti in st.rows && st.rows[token.jti].Active()
    requires NewFlow(st, f) && NewFlow(st, g) && f != g
    ensures Valid(cfg, st, evs)
    ensures var end := Run(cfg, st, evs);
      && Inv(cfg, end) && end.rows == st.rows && f in end.flows && g in end.flows
      && Rotates(end.flows[f], token.jti) && end.flows[f].claims == token.claims
      && Rotates(end.flows[g], token.jti)
      && forall h | h in st.flows :: h in end.flows && end.flows[h] == st.flows[h]
  {
    RowOfToken(cfg, st, token);
    var a := ReadPasses(cfg, st, f, token);
    var b := ReadPasses(cfg, Run(cfg, st, a), g, token);
    ValidAppend(cfg, st, a, b);
    evs := a + b;
    RunInv(cfg, st, evs);
  }

  /**
   At most one successor does hold of serial execution (AuthSerial) but not of
   interleavings: from every reachable state with an acceptable token, two
   overlapping refreshes of it leave its row with two active successors.
   */
  lemma OverlappingRefreshesForkTheChain(cfg: Config, st: State, token: RefreshJwt, f: FlowId, g: FlowId)
    returns (evs: seq<Event>, c: Uuid, d: Uuid)
    requires cfg.Valid() && Reachable(cfg, st)
    requires Verifies(st, token) && token.jti in st.rows && st.rows[token.jti].Active()
    requires NewFlow(st, f) && NewFlow(st, g) && f != g
    ensures Valid(cfg, st, evs)
    ensures var end := Run(cfg, st, evs);
      && c != d && ChildOf(end, c, token.jti) && ChildOf(end, d, token.jti)
      && c in end.rows && d in end.rows && end.rows[c].Active() && end.rows[d].Active()
  {
    ReachableInv(cfg, st);
    var a := BothPass(cfg, st, token, f, g);
    var rest;
    rest, c, d := BothFinish(cfg, Run(cfg, st, a), f, g);
    ValidAppend(cfg, st, a, rest);
    evs := a + rest;
  }

  /** Two flows that stored one after the other left two rows. */
  lemma BothStored(st: State, mid: State, end: State, f: FlowId, g: FlowId, i: Uuid, j: Uuid)
    requires f in st.flows && g in st.flows && f != g
    requires st.flows[f].Committed() && st.flows[g].Committed() && st.flows[g].origin.Rotation?
    requires st.flows[g].origin.parent in st.rows
    requires Stored(st, mid, f, i) && g in mid.flows && Stored(mid, end, g, j)
    ensures i != j && i in end.rows && end.rows[i] == mid.rows[i]
  {
  }

  lemma BothFinish(cfg: Config, st: State, f: FlowId, g: FlowId) returns (evs: seq<Event>, c: Uuid, d: Uuid)
    requires cfg.Valid() && Inv(cfg, st) && f in st.flows && g in st.flows && f != g
    requires st.flows[f].Committed() && st.flows[g].Committed()
    requires st.flows[f].origin.Rotation? && st.flows[g].origin.Rotation?
    requires st.flows[f].origin.parent == st.flows[g].origin.parent && st.flows[g].origin.parent in st.rows
    ensures Valid(cfg, st, evs)
    ensures var end, p := Run(cfg, st, evs), st.flows[f].origin.parent;
      && c != d && ChildOf(end, c, p) && ChildOf(end, d, p)
      && c in end.rows && d in end.rows && end.rows[c].Active() && end.rows[d].Active()
  {
    var first, second;
    first, c := FlowCanFinish(cfg, st, f);
    var mid := Run(cfg, st, first);
    RunInv(cfg, st, first);
    second, d := FlowCanFinish(cfg, mid, g);
    RunGrows(cfg, mid, second);
    BothStored(st, mid, Run(cfg, mid, second), f, g, c, d);
    ValidAppend(cfg, st, first, second);
    evs := first + second;
  }

  lemma RunGrows(cfg: Config, st: State, evs: seq<Event>)
    requires cfg.Valid() && Inv(cfg, st) && Valid(cfg, st, evs)
    ensures HistoryGrows(st, Run(cfg, st, evs))
  {
    RunInv(cfg, st, evs);
  }

  // ---- Exactly when there is never a second successor ---------------------------------

  ghost predicate OneChild(st: State, p: Uuid) {
    forall c, d | ChildOf(st, c, p) && ChildOf(st, d, p) :: c == d
  }

  /** In no continuation does `p` have two successors. */
  ghost predicate StaysSingle(cfg: Config, st: State, p: Uuid) {
    forall evs | Valid(cfg, st, evs) :: OneChild(Run(cfg, st, evs), p)
  }

  /** A refresh that will store a successor of `p`. */
  predicate Rotates(flow: Flow, p: Uuid) {
    flow.Committed() && flow.origin.Rotation? && flow.origin.parent == p
  }

  /** A refresh that will, or with `p` active may yet, store a successor of `p`. */
  predicate MayRotate(flow: Flow, p: Uuid) {
    Rotates(flow, p) || (flow.Verified? && flow.token.jti == p)
  }

  /**
   At most one successor is stored or on its way; and while the row is active its token
   has expired and at most one refresh that verified it earlier is left.
   */
  ghost predicate Single(st: State, p: Uuid) {
    && p in st.rows && p in st.minted
    && OneChild(st, p)
    && (forall c, f | ChildOf(st, c, p) && f in st.flows :: !Rotates(st.flows[f], p))
    && (forall f, g | f in st.flows && g in st.flows && Rotates(st.flows[f], p) && Rotates(st.flows[g], p) :: f == g)
    && (st.rows[p].Active() ==>
          && !Unexpired(st.minted[p].exp, st.now)
          && (forall f, g | f in st.flows && g in st.flows && MayRotate(st.flows[f], p) && MayRotate(st.flows[g], p) ::
                f == g))
  }

  /** A flow that comes to rotate `p` did so before, or read `p` active. */
  lemma RotatesOnlyIfItMight(cfg: Config, st: State, e: Event, p: Uuid)
    requires Ready(cfg, st, e)
    requires var move := EffectOf(cfg, st, e).move; move.Continue? && Rotates(move.flow, p)
    ensures e.f in st.flows && MayRotate(st.flows[e.f], p)
    ensures !Rotates(st.flows[e.f], p) ==> p in st.rows && st.rows[p].Active()
  {
    if e.f in st.flows && st.flows[e.f].Committed() {
      IssuingEffect(cfg, st, e);
    } else {
      StartsIssuing(cfg, st, e);
      assert RowMatches(st.rows[st.flows[e.f].token.jti], st.minted[st.flows[e.f].token.jti]);
    }
  }

  /** Nothing but an unexpired token of `p` starts another refresh of it. */
  lemma MayRotateOnlyIfItDid(cfg: Config, st: State, e: Event, p: Uuid)
    requires Ready(cfg, st, e) && p in st.minted
    requires var move := EffectOf(cfg, st, e).move; move.Continue? && MayRotate(move.flow, p)
    ensures Unexpired(st.minted[p].exp, st.now) || (e.f in st.flows && MayRotate(st.flows[e.f], p))
  {
    if Rotates(EffectOf(cfg, st, e).move.flow, p) { RotatesOnlyIfItMight(cfg, st, e, p); }
  }

  /** A child a step adds comes from the flow that rotated `p`. */
  lemma NewChildOf(cfg: Config, st: State, e: Event, p: Uuid, c: Uuid)
    requires cfg.Valid() && Ready(cfg, st, e) && ChildOf(Next(cfg, st, e), c, p) && !ChildOf(st, c, p)
    ensures e.f in st.flows && Rotates(st.flows[e.f], p) && e.f !in Next(cfg, st, e).flows
    ensures EffectOf(cfg, st, e).write.Rotate? && c == EffectOf(cfg, st, e).write.row.id
  {
    EffectSound(cfg, st, e);
    if e.f in st.flows && st.flows[e.f].Committed() {
      IssuingEffect(cfg, st, e);
    } else {
      StartsIssuing(cfg, st, e);
    }
  }

  lemma SingleFlows(cfg: Config, st: State, e: Event, p: Uuid)
    requires cfg.Valid() && Ready(cfg, st, e) && Grows(st, Next(cfg, st, e)) && Single(st, p)
    ensures var st' := Next(cfg, st, e);
      && (forall f, g | f in st'.flows && g in st'.flows && Rotates(st'.flows[f], p) && Rotates(st'.flows[g], p) ::
            f == g)
      && (st'.rows[p].Active() ==>
            && !Unexpired(st'.minted[p].exp, st'.now)
            && (forall f, g | f in st'.flows && g in st'.flows
                              && MayRotate(st'.flows[f], p) && MayRotate(st'.flows[g], p) :: f == g))
  {
    var st', move := Next(cfg, st, e), EffectOf(cfg, st, e).move;
    assert Ages(st.rows[p], st'.rows[p]);
    if move.Continue? && Rotates(move.flow, p) { RotatesOnlyIfItMight(cfg, st, e, p); }
    if move.Continue? && MayRotate(move.flow, p) { MayRotateOnlyIfItDid(cfg, st, e, p); }
  }

  lemma SingleChildren(cfg: Config, st: State, e: Event, p: Uuid)
    requires cfg.Valid() && Ready(cfg, st, e) && Single(st, p)
    requires forall c | ChildOf(st, c, p) :: !st.rows[p].Active()
    ensures var st' := Next(cfg, st, e);
      && OneChild(st', p)
      && (forall c, f | ChildOf(st', c, p) && f in st'.flows :: !Rotates(st'.flows[f], p))
  {
    var st', move := Next(cfg, st, e), EffectOf(cfg, st, e).move;
    forall c, d | ChildOf(st', c, p) && ChildOf(st', d, p)
      ensures c == d
    {
      if !ChildOf(st, c, p) { NewChildOf(cfg, st, e, p, c); }
      if !ChildOf(st, d, p) { NewChildOf(cfg, st, e, p, d); }
    }
    forall c, f | ChildOf(st', c, p) && f in st'.flows
      ensures !Rotates(st'.flows[f], p)
    {
      if !ChildOf(st, c, p) { NewChildOf(cfg, st, e, p, c); }
      if f == e.f && Rotates(move.flow, p) { RotatesOnlyIfItMight(cfg, st, e, p); }
    }
  }

  lemma ParentsAreRevoked(st: State, p: Uuid)
    requires RowInv(st) && BirthInv(st) && p in st.rows
    ensures forall c | ChildOf(st, c, p) :: !st.rows[p].Active()
  {
    forall c | ChildOf(st, c, p)
      ensures !st.rows[p].Active()
    {
      assert BirthOk(st, c);
    }
  }

  lemma SingleStep(cfg: Config, st: State, e: Event, p: Uuid)
    requires cfg.Valid() && Inv(cfg, st) && Enabled(st, e) && Single(st, p)
    ensures Single(Next(cfg, st, e), p)
  {
    if e.Tick? {
      assert forall c :: ChildOf(Next(cfg, st, e), c, p) <==> ChildOf(st, c, p);
    } else {
      NextGrows(cfg, st, e);
      InvReady(cfg, st, e);
      ParentsAreRevoked(st, p);
      SingleFlows(cfg, st, e, p);
      SingleChildren(cfg, st, e, p);
    }
  }

  lemma {:induction false} SingleRun(cfg: Config, st: State, evs: seq<Event>, p: Uuid)
    requires cfg.Valid() && Inv(cfg, st) && Valid(cfg, st, evs) && Single(st, p)
    ensures OneChild(Run(cfg, st, evs), p)
    decreases |evs|
  {
    if evs == [] {
    } else {
      NextInv(cfg, st, evs[0]);
      SingleStep(cfg, st, evs[0], p);
      SingleRun(cfg, Next(cfg, st, evs[0]), evs[1..], p);
    }
  }

  /** A refresh past its checks beside a stored successor stores a second one. */
  lemma SecondChild(cfg: Config, st: State, p: Uuid, c: Uuid, f: FlowId) returns (evs: seq<Event>)
    requires cfg.Valid() && Reachable(cfg, st) && ChildOf(st, c, p) && f in st.flows && Rotates(st.flows[f], p)
    ensures Valid(cfg, st, evs) && !OneChild(Run(cfg, st, evs), p)
  {
    ReachableInv(cfg, st);
    var i;
    evs, i := FlowCanFinish(cfg, st, f);
    RunGrows(cfg, st, evs);
    var end := Run(cfg, st, evs);
    assert ChildOf(end, c, p) && ChildOf(end, i, p);
  }

  /** With `p` active, a refresh that may rotate it can get past its checks, disturbing nothing. */
  lemma PassesItsChecks(cfg: Config, st: State, f: FlowId, p: Uuid) returns (evs: seq<Event>)
    requires cfg.Valid() && Inv(cfg, st) && f in st.flows && MayRotate(st.flows[f], p)
    requires p in st.rows && st.rows[p].Active()
    ensures Valid(cfg, st, evs)
    ensures var end := Run(cfg, st, evs);
      && Inv(cfg, end) && end.rows == st.rows
      && f in end.flows && Rotates(end.flows[f], p)
      && (forall g | g in st.flows && g != f :: g in end.flows && end.flows[g] == st.flows[g])
  {
    if Rotates(st.flows[f], p) {
      evs := [];
    } else {
      evs := [Read(f)];
      OneEvent(cfg, st, Read(f));
      NextInv(cfg, st, Read(f));
      assert FlowInv(cfg, st, st.flows[f]);
      assert RowMatches(st.rows[p], st.minted[p]);
    }
  }

  lemma TwoRefreshesFork(cfg: Config, st: State, p: Uuid, f: FlowId, g: FlowId) returns (evs: seq<Event>)
    requires cfg.Valid() && Reachable(cfg, st) && p in st.rows && f in st.flows && g in st.flows && f != g
    requires MayRotate(st.flows[f], p) && MayRotate(st.flows[g], p)
    requires st.rows[p].Active() || (Rotates(st.flows[f], p) && Rotates(st.flows[g], p))
    ensures Valid(cfg, st, evs) && !OneChild(Run(cfg, st, evs), p)
  {
    ReachableInv(cfg, st);
    var a, b := [], [];
    if st.rows[p].Active() {
      a := PassesItsChecks(cfg, st, f, p);
      b := PassesItsChecks(cfg, Run(cfg, st, a), g, p);
    }
    ValidAppend(cfg, st, a, b);
    var rest, c, d := BothFinish(cfg, Run(cfg, st, a + b), f, g);
    ValidAppend(cfg, st, a + b, rest);
    evs := a + b + rest;
  }

  lemma UnexpiredForks(cfg: Config, st: State, p: Uuid) returns (evs: seq<Event>)
    requires cfg.Valid() && Reachable(cfg, st) && p in st.rows && p in st.minted && st.minted[p].jti == p
    requires st.rows[p].Active() && Unexpired(st.minted[p].exp, st.now)
    ensures Valid(cfg, st, evs) && !OneChild(Run(cfg, st, evs), p)
  {
    var f := FreshUuid(st.flows.Keys + st.done.Keys);
    var g := FreshUuid(st.flows.Keys + st.done.Keys + {f});
    var c, d;
    evs, c, d := OverlappingRefreshesForkTheChain(cfg, st, st.minted[p], f, g);
  }

  lemma RowIsSigned(cfg: Config, st: State, p: Uuid)
    requires cfg.Valid() && Reachable(cfg, st) && p in st.rows
    ensures p in st.minted && st.minted[p].jti == p
  {
    ReachableInv(cfg, st);
  }

  /** Whatever part of `Single` fails, some continuation gives `p` two successors. */
  lemma NotSingleForks(cfg: Config, st: State, p: Uuid) returns (evs: seq<Event>)
    requires cfg.Valid() && Reachable(cfg, st) && p in st.rows && !Single(st, p)
    ensures Valid(cfg, st, evs) && !OneChild(Run(cfg, st, evs), p)
  {
    RowIsSigned(cfg, st, p);
    if !OneChild(st, p) {
      evs := [];
    } else if c, f :| ChildOf(st, c, p) && f in st.flows && Rotates(st.flows[f], p) {
      evs := SecondChild(cfg, st, p, c, f);
    } else if f, g :| f in st.flows && g in st.flows && Rotates(st.flows[f], p) && Rotates(st.flows[g], p) && f != g {
      evs := TwoRefreshesFork(cfg, st, p, f, g);
    } else if Unexpired(st.minted[p].exp, st.now) {
      evs := UnexpiredForks(cfg, st, p);
    } else {
      var f, g :| f in st.flows && g in st.flows && MayRotate(st.flows[f], p) && MayRotate(st.flows[g], p) && f != g;
      evs := TwoRefreshesFork(cfg, st, p, f, g);
    }
  }

  /** At most one successor, now and in every continuation, if and only if the state is `Single`. */
  lemma AtMostOneSuccessorIff(cfg: Config, st: State, p: Uuid)
    requires cfg.Valid() && Reachable(cfg, st) && p in st.rows
    ensures StaysSingle(cfg, st, p) <==> Single(st, p)
  {
    ReachableInv(cfg, st);
    if Single(st, p) {
      forall evs | Valid(cfg, st, evs)
        ensures OneChild(Run(cfg, st, evs), p)
      {
        SingleRun(cfg, st, evs, p);
      }
    } else {
      var evs := NotSingleForks(cfg, st, p);
    }
  }

  // ---- A replay that misses a refresh in flight --------------------------------------

  /** A verified replay of a revoked token goes on to find all of the user's active rows. */
  lemma ReplayFindsRows(cfg: Config, st: State, h: FlowId, token: RefreshJwt) returns (evs: seq<Event>)
    requires cfg.Valid() && Inv(cfg, st) && h in st.flows && st.flows[h] == Verified(token)
    requires token.jti in st.rows && !st.rows[token.jti].Active()
    ensures Valid(cfg, st, evs)
    ensures var end := Run(cfg, st, evs);
      && end.rows == st.rows && Enabled(end, RevokeAll(h))
      && end.flows[h].userId == token.claims.sub && end.flows[h].reason == Reused
      && end.flows[h].found == ActiveRows(st.rows, token.claims.sub)
      && (forall f | f in st.flows && f != h :: f in end.flows && end.flows[f] == st.flows[f])
  {
    assert FlowInv(cfg, st, st.flows[h]);
    assert RowMatches(st.rows[token.jti], st.minted[token.jti]);
    OneEvent(cfg, st, Read(h));
    var st1 := Next(cfg, st, Read(h));
    assert st1.flows[h] == Killing(token.claims.sub, Reused);
    OneEvent(cfg, st1, FindAll(h));
    evs := [Read(h)] + [FindAll(h)];
    ValidAppend(cfg, st, [Read(h)], [FindAll(h)]);
  }

  lemma RevokeAllLeavesNone(cfg: Config, st: State, h: FlowId)
    requires Enabled(st, RevokeAll(h)) && st.flows[h].found == ActiveRows(st.rows, st.flows[h].userId)
    ensures NoneActive(Next(cfg, st, RevokeAll(h)).rows, st.flows[h].userId)
  {
  }

  /** Two refreshes of a token pass their checks and the second one finishes. */
  lemma OneFinishesFirst(cfg: Config, st: State, token: RefreshJwt, f: FlowId, g: FlowId, h: FlowId)
    returns (evs: seq<Event>)
    requires cfg.Valid() && Inv(cfg, st) && Verifies(st, token) && h in st.flows && st.flows[h] == Verified(token)
    requires token.jti in st.rows && st.rows[token.jti].Active()
    requires NewFlow(st, f) && NewFlow(st, g) && f != g && f != h && g != h
    ensures Valid(cfg, st, evs)
    ensures var end := Run(cfg, st, evs);
      && Inv(cfg, end) && token.jti in end.rows && !end.rows[token.jti].Active()
      && h in end.flows && end.flows[h] == Verified(token)
      && f in end.flows && end.flows[f].Committed() && end.flows[f].claims == token.claims
  {
    var a := BothPass(cfg, st, token, f, g);
    var b, i := FlowCanFinish(cfg, Run(cfg, st, a), g);
    RunInv(cfg, Run(cfg, st, a), b);
    assert BirthOk(Run(cfg, Run(cfg, st, a), b), i);
    ValidAppend(cfg, st, a, b);
    evs := a + b;
  }

  /**
   From every reachable state with an acceptable token: a replay's revoke-all can leave
   the user without an active row while a refresh that read before it is still to
   store one. So the revocation is not final.
   */
  lemma ReplayMissesRefreshInFlight(cfg: Config, st: State, token: RefreshJwt, f: FlowId, g: FlowId, h: FlowId)
    returns (evs: seq<Event>)
    requires cfg.Valid() && Reachable(cfg, st)
    requires Verifies(st, token) && token.jti in st.rows && st.rows[token.jti].Active()
    requires NewFlow(st, f) && NewFlow(st, g) && NewFlow(st, h) && f != g && f != h && g != h
    ensures Valid(cfg, st, evs) && Enabled(Run(cfg, st, evs), RevokeAll(h))
    ensures var end := Next(cfg, Run(cfg, st, evs), RevokeAll(h));
      && h in end.done && end.done[h] == AlreadyUsed
      && NoneActive(end.rows, token.claims.sub) && InFlight(end, token.claims.sub)
      && !Final(cfg, end, token.claims.sub)
  {
    ReachableInv(cfg, st);
    var e := StartRefresh(h, token);
    OneEvent(cfg, st, e);
    NextInv(cfg, st, e);
    var st1 := Next(cfg, st, e);
    var a := OneFinishesFirst(cfg, st1, token, f, g, h);
    ValidAppend(cfg, st, [e], a);
    var st2 := Run(cfg, st1, a);
    var b := ReplayFindsRows(cfg, st2, h, token);
    ValidAppend(cfg, st, [e] + a, b);
    evs := [e] + a + b;
    NotFinalWithFlow(cfg, st, evs, h, f, token.claims.sub);
  }

  lemma NotFinalWithFlow(cfg: Config, st: State, evs: seq<Event>, h: FlowId, f: FlowId, user: Uuid)
    requires cfg.Valid() && Reachable(cfg, st) && Valid(cfg, st, evs)
    requires var mid := Run(cfg, st, evs);
      && Enabled(mid, RevokeAll(h)) && mid.flows[h].userId == user && mid.flows[h].found == ActiveRows(mid.rows, user)
      && f in mid.flows && f != h && mid.flows[f].Committed() && mid.flows[f].claims.sub == user
    ensures var end := Next(cfg, Run(cfg, st, evs), RevokeAll(h));
      NoneActive(end.rows, user) && InFlight(end, user) && !Final(cfg, end, user)
  {
    var mid := Run(cfg, st, evs);
    var end := Next(cfg, mid, RevokeAll(h));
    RevokeAllLeavesNone(cfg, mid, h);
    assert f in end.flows && end.flows[f] == mid.flows[f];
    OneEvent(cfg, mid, RevokeAll(h));
    ValidAppend(cfg, st, evs, [RevokeAll(h)]);
    ReachableLater(cfg, st, evs + [RevokeAll(h)]);
    RevocationFinalIff(cfg, end, user);
  }
}
