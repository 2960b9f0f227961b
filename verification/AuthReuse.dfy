/**
 Reuse detection under interleaving: what `revokeAllForUser` ends for good, what
 may outlive it, and exactly when nothing does.
 */
module AuthReuse {
  import opened Prelude
  import opened Tokens
  import opened RefreshTokens
  import opened AuthSteps
  import opened AuthInvariant
  import opened AuthTheorems

  // ---- Survivors of a revoke-all ------------------------------------------------

  /**
   After every row of `user` born up to step `from` was revoked at step `t`: those
   rows stay revoked, and whoever reads a parent after `t` reads one born after
   `from`. `late` is the stronger form in which no rotation had read its parent by `t`.
   A revoke-all finds its rows at `from` and takes effect at `t`.
   */
  ghost predicate Cut(st: State, user: Uuid, from: nat, t: nat, late: bool) {
    && from <= t < st.step
    && (forall i | i in st.rows && i in st.birth && st.rows[i].userId == user && st.birth[i].at <= from ::
          !st.rows[i].Active())
    && (forall i | i in st.rows && i in st.birth && st.rows[i].userId == user && from < st.birth[i].at ::
          OriginAfter(st, st.birth[i].origin, from, t, late))
    && (forall f | f in st.flows && st.flows[f].Committed() && st.flows[f].claims.sub == user ::
          OriginAfter(st, st.flows[f].origin, from, t, late))
  }

  ghost predicate OriginAfter(st: State, origin: Origin, from: nat, t: nat, late: bool) {
    origin.Rotation? ==>
      && (late ==> t < origin.readAt)
      && (t < origin.readAt ==> origin.parent in st.birth && from < st.birth[origin.parent].at)
  }

  /** A flow past its checks carries its claims and origin to the end, and stores them. */
  lemma IssuingEffect(cfg: Config, st: State, e: Event)
    requires Ready(cfg, st, e) && e.f in st.flows && st.flows[e.f].Committed()
    ensures var Effect(move, w, _) := EffectOf(cfg, st, e);
      && (move.Continue? ==>
            && move.flow.Committed() && move.flow.claims == st.flows[e.f].claims
            && move.flow.origin == st.flows[e.f].origin)
      && !w.RevokeFound? && !w.RevokeRow?
      && (w != NoWrite ==> w.origin == st.flows[e.f].origin && w.row.userId == st.flows[e.f].claims.sub)
  {
  }

  /** Only a login or the checks after a read bring a flow past its checks. */
  lemma StartsIssuing(cfg: Config, st: State, e: Event)
    requires Ready(cfg, st, e) && !(e.f in st.flows && st.flows[e.f].Committed())
    ensures var Effect(move, w, _) := EffectOf(cfg, st, e);
      && !w.Insert? && !w.Rotate?
      && (move.Continue? && move.flow.Committed() ==>
            || (e.StartLogin? && move.flow == Issuing(ClaimsOf(e.user), Login(e.user)))
            || (e.Read? && move.flow.Issuing? && st.flows[e.f].token.jti in st.rows
                && st.rows[st.flows[e.f].token.jti].Active()
                && st.rows[st.flows[e.f].token.jti].userId == move.flow.claims.sub
                && move.flow.origin == Rotation(st.flows[e.f].token.jti, st.step)))
  {
  }

  lemma CutFlow(cfg: Config, st: State, e: Event, user: Uuid, from: nat, t: nat, late: bool)
    requires Ready(cfg, st, e) && Cut(st, user, from, t, late)
    requires var m := EffectOf(cfg, st, e).move; m.Continue? && m.flow.Committed() && m.flow.claims.sub == user
    ensures OriginAfter(st, EffectOf(cfg, st, e).move.flow.origin, from, t, late)
  {
    if e.f in st.flows && st.flows[e.f].Committed() {
      IssuingEffect(cfg, st, e);
    } else {
      StartsIssuing(cfg, st, e);
    }
  }

  lemma CutFlows(cfg: Config, st: State, e: Event, user: Uuid, from: nat, t: nat, late: bool)
    requires cfg.Valid() && Ready(cfg, st, e) && Cut(st, user, from, t, late)
    ensures forall f | f in Next(cfg, st, e).flows && Next(cfg, st, e).flows[f].Committed()
                       && Next(cfg, st, e).flows[f].claims.sub == user ::
      OriginAfter(Next(cfg, st, e), Next(cfg, st, e).flows[f].origin, from, t, late)
  {
    var st' := Next(cfg, st, e);
    EffectSound(cfg, st, e);
    ApplyGrows(cfg, st, e.f, EffectOf(cfg, st, e), LoginsAfter(st, e));
    forall f | f in st'.flows && st'.flows[f].Committed() && st'.flows[f].claims.sub == user
      ensures OriginAfter(st', st'.flows[f].origin, from, t, late)
    {
      if f == e.f {
        CutFlow(cfg, st, e, user, from, t, late);
      } else {
        assert OriginAfter(st, st.flows[f].origin, from, t, late);
      }
    }
  }

  /** A row that was there before stays on its side of the cut. */
  lemma CutOldRow(cfg: Config, st: State, st': State, user: Uuid, from: nat, t: nat, late: bool, i: Uuid)
    requires Cut(st, user, from, t, late) && Grows(st, st')
    requires i in st.rows && i in st.birth && st'.rows[i].userId == user
    ensures if st'.birth[i].at <= from then !st'.rows[i].Active()
        else OriginAfter(st', st'.birth[i].origin, from, t, late)
  {
    assert Ages(st.rows[i], st'.rows[i]);
  }

  /** The row a step stores takes its origin from a flow on the right side of the cut. */
  lemma CutNewRow(cfg: Config, st: State, e: Event, st': State, user: Uuid, from: nat, t: nat, late: bool, i: Uuid)
    requires cfg.Valid() && Ready(cfg, st, e) && Cut(st, user, from, t, late)
    requires st' == Next(cfg, st, e) && Grows(st, st')
    requires i !in st.rows && i in st'.rows && i in st'.birth && st'.rows[i].userId == user
    ensures if st'.birth[i].at <= from then !st'.rows[i].Active()
        else OriginAfter(st', st'.birth[i].origin, from, t, late)
  {
    IssuingEffect(cfg, st, e);
    assert OriginAfter(st, st.flows[e.f].origin, from, t, late);
  }

  lemma CutRows(cfg: Config, st: State, e: Event, user: Uuid, from: nat, t: nat, late: bool, i: Uuid)
    requires cfg.Valid() && Ready(cfg, st, e) && Cut(st, user, from, t, late)
    requires i in Next(cfg, st, e).rows && i in Next(cfg, st, e).birth && Next(cfg, st, e).rows[i].userId == user
    ensures var st' := Next(cfg, st, e);
      if st'.birth[i].at <= from then !st'.rows[i].Active() else OriginAfter(st', st'.birth[i].origin, from, t, late)
  {
    var st' := Next(cfg, st, e);
    EffectSound(cfg, st, e);
    ApplyGrows(cfg, st, e.f, EffectOf(cfg, st, e), LoginsAfter(st, e));
    if i in st.rows {
      CutOldRow(cfg, st, st', user, from, t, late, i);
    } else {
      CutNewRow(cfg, st, e, st', user, from, t, late, i);
    }
  }

  lemma CutStep(cfg: Config, st: State, e: Event, user: Uuid, from: nat, t: nat, late: bool)
    requires cfg.Valid() && Inv(cfg, st) && Enabled(st, e) && Cut(st, user, from, t, late)
    ensures Cut(Next(cfg, st, e), user, from, t, late)
  {
    if e.Tick? { return; }
    var st' := Next(cfg, st, e);
    InvReady(cfg, st, e);
    CutFlows(cfg, st, e, user, from, t, late);
    forall i | i in st'.rows && i in st'.birth && st'.rows[i].userId == user
      ensures if st'.birth[i].at <= from then !st'.rows[i].Active()
          else OriginAfter(st', st'.birth[i].origin, from, t, late)
    {
      CutRows(cfg, st, e, user, from, t, late, i);
    }
  }

  lemma {:induction false} CutRun(cfg: Config, st: State, evs: seq<Event>, user: Uuid, from: nat, t: nat, late: bool)
    requires cfg.Valid() && Inv(cfg, st) && Valid(cfg, st, evs) && Cut(st, user, from, t, late)
    ensures Inv(cfg, Run(cfg, st, evs)) && Cut(Run(cfg, st, evs), user, from, t, late)
    decreases |evs|
  {
    if evs == [] {
    } else {
      NextInv(cfg, st, evs[0]);
      CutStep(cfg, st, evs[0], user, from, t, late);
      CutRun(cfg, Next(cfg, st, evs[0]), evs[1..], user, from, t, late);
    }
  }

  /**
   Following parents from `i` through rows born after `from`, the chain ends at a
   login or at a refresh that had read its parent before `t`.
   */
  ghost predicate Escapes(cfg: Config, st: State, i: Uuid, from: nat, t: nat)
    requires Inv(cfg, st) && i in st.rows
    decreases st.birth[i].at
  {
    assert BirthOk(st, i);
    match st.birth[i].origin
    case Login(_) => true
    case Rotation(p, readAt) => readAt < t || (from < st.birth[p].at && Escapes(cfg, st, p, from, t))
  }

  lemma {:induction false} CutEscapes(cfg: Config, st: State, user: Uuid, from: nat, t: nat, i: Uuid)
    requires Inv(cfg, st) && Cut(st, user, from, t, false)
    requires i in st.rows && st.rows[i].userId == user && from < st.birth[i].at
    requires forall j | j in st.rows && st.birth[j].origin.Rotation? :: st.birth[j].origin.readAt != t
    ensures Escapes(cfg, st, i, from, t)
    decreases st.birth[i].at
  {
    assert BirthOk(st, i);
    if st.birth[i].origin.Rotation? && t < st.birth[i].origin.readAt {
      CutEscapes(cfg, st, user, from, t, st.birth[i].origin.parent);
    }
  }

  /** The step at which a revoke-all takes effect is not the step at which anything was read or inserted. */
  ghost predicate Quiet(st: State, t: nat) {
    && t < st.step
    && (forall j | j in st.birth :: st.birth[j].at != t)
    && (forall j | j in st.birth && st.birth[j].origin.Rotation? :: st.birth[j].origin.readAt != t)
    && (forall f | f in st.flows && st.flows[f].Committed() && st.flows[f].origin.Rotation? ::
          st.flows[f].origin.readAt != t)
  }

  lemma QuietMove(cfg: Config, st: State, e: Event, t: nat)
    requires Ready(cfg, st, e) && Quiet(st, t)
    ensures Quiet(Next(cfg, st, e), t)
  {
    if e.f in st.flows && st.flows[e.f].Committed() {
      IssuingEffect(cfg, st, e);
    } else {
      StartsIssuing(cfg, st, e);
    }
  }

  lemma QuietStep(cfg: Config, st: State, e: Event, t: nat)
    requires cfg.Valid() && Inv(cfg, st) && Enabled(st, e) && Quiet(st, t)
    ensures Quiet(Next(cfg, st, e), t)
  {
    if !e.Tick? {
      InvReady(cfg, st, e);
      QuietMove(cfg, st, e, t);
    }
  }

  lemma {:induction false} QuietRun(cfg: Config, st: State, evs: seq<Event>, t: nat)
    requires cfg.Valid() && Inv(cfg, st) && Valid(cfg, st, evs) && Quiet(st, t)
    ensures Quiet(Run(cfg, st, evs), t)
    decreases |evs|
  {
    if evs == [] {
    } else {
      NextInv(cfg, st, evs[0]);
      QuietStep(cfg, st, evs[0], t);
      QuietRun(cfg, Next(cfg, st, evs[0]), evs[1..], t);
    }
  }

  /** Everything read or inserted so far precedes the present step. */
  ghost predicate ReadsPrecede(st: State) {
    && (forall i | i in st.birth :: st.birth[i].at < st.step)
    && (forall i | i in st.birth && st.birth[i].origin.Rotation? :: st.birth[i].origin.readAt < st.step)
    && (forall g | g in st.flows && st.flows[g].Committed() && st.flows[g].origin.Rotation? ::
          st.flows[g].origin.readAt < st.step)
  }

  lemma InvReadsPrecede(cfg: Config, st: State)
    requires Inv(cfg, st)
    ensures ReadsPrecede(st)
  {
    forall i | i in st.birth
      ensures st.birth[i].at < st.step
      ensures st.birth[i].origin.Rotation? ==> st.birth[i].origin.readAt < st.step
    {
      assert BirthOk(st, i);
    }
    forall g | g in st.flows && st.flows[g].Committed() && st.flows[g].origin.Rotation?
      ensures st.flows[g].origin.readAt < st.step
    {
      assert FlowInv(cfg, st, st.flows[g]);
    }
  }

  /** The step of the revoke-all itself draws the cut. */
  lemma RevokeAllCuts(cfg: Config, st: State, f: FlowId)
    requires Enabled(st, RevokeAll(f)) && RowInv(st) && ReadsPrecede(st)
    requires FoundInv(st, st.flows[f].userId, st.flows[f].found, st.flows[f].foundAt)
    ensures var st' := Next(cfg, st, RevokeAll(f));
      Cut(st', st.flows[f].userId, st.flows[f].foundAt, st.step, false) && Quiet(st', st.step)
  {
  }

  /** A revoke-all stamps rows of its user only, and every one of them stored before its search. */
  lemma RevokeAllMeaning(cfg: Config, st: State, f: FlowId)
    requires cfg.Valid() && Reachable(cfg, st) && Enabled(st, RevokeAll(f))
    ensures var Revoking(user, _, found, foundAt), after := st.flows[f], Next(cfg, st, RevokeAll(f)).rows;
      && after.Keys == st.rows.Keys && st.rows.Keys == st.birth.Keys
      && (forall i | i in st.rows :: after[i] == st.rows[i] || after[i] == st.rows[i].(revokedAt := Some(st.now)))
      && (forall i | i in st.rows && (st.rows[i].userId != user || !st.rows[i].Active()) :: after[i] == st.rows[i])
      && (forall i | i in st.rows && st.rows[i].userId == user && st.birth[i].at <= foundAt :: !after[i].Active())
  {
    ReachableInv(cfg, st);
    assert FlowInv(cfg, st, st.flows[f]);
  }

  // ---- A replay is answered -------------------------------------------------------

  /** All rows of the user stored before step `from` are revoked. */
  ghost predicate DeadBefore(st: State, user: Uuid, from: nat) {
    forall i | i in st.rows && i in st.birth && st.rows[i].userId == user && st.birth[i].at < from ::
      !st.rows[i].Active()
  }

  /** A replay that arrived at step `from`, on its way to the revoke-all. */
  ghost predicate Replays(flow: Flow, token: RefreshJwt, from: nat) {
    match flow
    case Verified(t) => t == token
    case Killing(user, reason) => user == token.claims.sub && reason == Reused
    case Revoking(user, reason, _, foundAt) => user == token.claims.sub && reason == Reused && from <= foundAt
    case _ => false
  }

  /** It is on its way, or done with it. */
  ghost predicate ReplayTrack(st: State, f: FlowId, token: RefreshJwt, from: nat) {
    && from <= st.step
    && token.jti in st.rows && !st.rows[token.jti].Active()
    && (if f in st.flows then f !in st.done && Replays(st.flows[f], token, from)
        else f in st.done && st.done[f] == AlreadyUsed && DeadBefore(st, token.claims.sub, from))
  }

  /** The checks send a replay on to the search, the search to the revoke-all. */
  lemma ReplayGoesOn(cfg: Config, st: State, e: Event, token: RefreshJwt, from: nat)
    requires Ready(cfg, st, e) && e.f in st.flows && Replays(st.flows[e.f], token, from) && from <= st.step
    requires !e.Fail? && !e.RevokeAll? && token.jti in st.rows && !st.rows[token.jti].Active()
    ensures var move := EffectOf(cfg, st, e).move; move.Continue? && Replays(move.flow, token, from)
  {
    if e.Read? { assert RowMatches(st.rows[token.jti], st.minted[token.jti]); }
  }

  lemma ReplayEnds(cfg: Config, st: State, f: FlowId, token: RefreshJwt, from: nat)
    requires Ready(cfg, st, RevokeAll(f)) && Replays(st.flows[f], token, from)
    ensures var next := Next(cfg, st, RevokeAll(f));
      f !in next.flows && f in next.done && next.done[f] == AlreadyUsed && DeadBefore(next, token.claims.sub, from)
  {
    assert FoundInv(st, token.claims.sub, st.flows[f].found, st.flows[f].foundAt);
  }

  lemma ReplayMoves(cfg: Config, st: State, e: Event, token: RefreshJwt, from: nat)
    requires Ready(cfg, st, e) && ReplayTrack(st, e.f, token, from) && e.f in st.flows && !e.Fail?
    requires Grows(st, Next(cfg, st, e))
    ensures ReplayTrack(Next(cfg, st, e), e.f, token, from)
  {
    assert Ages(st.rows[token.jti], Next(cfg, st, e).rows[token.jti]);
    if e.RevokeAll? { ReplayEnds(cfg, st, e.f, token, from); } else { ReplayGoesOn(cfg, st, e, token, from); }
  }

  lemma DeadBeforeStays(st: State, next: State, user: Uuid, from: nat)
    requires RowInv(st) && DeadBefore(st, user, from) && Grows(st, next) && from <= st.step
    ensures DeadBefore(next, user, from)
  {
    forall i | i in next.rows && i in next.birth && next.rows[i].userId == user && next.birth[i].at < from
      ensures !next.rows[i].Active()
    {
      if i in st.rows { assert Ages(st.rows[i], next.rows[i]); }
    }
  }

  /** Steps of others leave a replay where it is. */
  lemma ReplayWaits(st: State, next: State, f: FlowId, token: RefreshJwt, from: nat)
    requires RowInv(st) && Grows(st, next) && ReplayTrack(st, f, token, from)
    requires f in next.flows <==> f in st.flows
    requires f in st.flows ==> next.flows[f] == st.flows[f] && f !in next.done
    ensures ReplayTrack(next, f, token, from)
  {
    assert Ages(st.rows[token.jti], next.rows[token.jti]);
    if f !in st.flows { DeadBeforeStays(st, next, token.claims.sub, from); }
  }

  lemma ReplayStep(cfg: Config, st: State, e: Event, f: FlowId, token: RefreshJwt, from: nat)
    requires cfg.Valid() && Inv(cfg, st) && Enabled(st, e) && e != Fail(f) && ReplayTrack(st, f, token, from)
    ensures ReplayTrack(Next(cfg, st, e), f, token, from)
  {
    NextGrows(cfg, st, e);
    if e.Tick? {
      ReplayWaits(st, Next(cfg, st, e), f, token, from);
    } else {
      InvReady(cfg, st, e);
      if e.f == f && f in st.flows {
        ReplayMoves(cfg, st, e, token, from);
      } else {
        ReplayWaits(st, Next(cfg, st, e), f, token, from);
      }
    }
  }

  lemma {:induction false} ReplayRun(cfg: Config, st: State, evs: seq<Event>, f: FlowId, token: RefreshJwt, from: nat)
    requires cfg.Valid() && Inv(cfg, st) && Valid(cfg, st, evs) && Fail(f) !in evs && ReplayTrack(st, f, token, from)
    ensures ReplayTrack(Run(cfg, st, evs), f, token, from)
    decreases |evs|
  {
    if evs == [] {
    } else {
      RestWithout(evs, Fail(f));
      NextInv(cfg, st, evs[0]);
      ReplayStep(cfg, st, evs[0], f, token, from);
      ReplayRun(cfg, Next(cfg, st, evs[0]), evs[1..], f, token, from);
    }
  }

  /**
   In every interleaving, a replay of a revoked token that ends without a failure of its
   own is answered as already used, and every row of that user stored before it arrived
   is revoked from then on.
   */
  lemma ReplayRevokesAllStored(cfg: Config, st: State, f: FlowId, token: RefreshJwt, evs: seq<Event>)
    requires cfg.Valid() && Reachable(cfg, st) && Enabled(st, StartRefresh(f, token)) && Verifies(st, token)
    requires token.jti in st.rows && !st.rows[token.jti].Active()
    requires Valid(cfg, Next(cfg, st, StartRefresh(f, token)), evs) && Fail(f) !in evs
    requires f in Run(cfg, Next(cfg, st, StartRefresh(f, token)), evs).done
    ensures var end := Run(cfg, Next(cfg, st, StartRefresh(f, token)), evs);
      && end.done[f] == AlreadyUsed
      && forall i | i in st.rows && st.rows[i].userId == token.claims.sub :: i in end.rows && !end.rows[i].Active()
  {
    ReachableInv(cfg, st);
    var next := Next(cfg, st, StartRefresh(f, token));
    NextInv(cfg, st, StartRefresh(f, token));
    ReplayRun(cfg, next, evs, f, token, st.step);
    RunInv(cfg, next, evs);
    var end := Run(cfg, next, evs);
    assert f !in end.flows;
    forall i | i in st.rows && st.rows[i].userId == token.claims.sub
      ensures i in end.rows && !end.rows[i].Active()
    {
      assert Ages(next.rows[i], end.rows[i]);
      assert i in st.birth && st.birth[i].at < st.step;
    }
  }

  // ---- Who survives --------------------------------------------------------------

  /** `end` follows the revoke-all that flow `f` is about to finish. */
  ghost predicate After(cfg: Config, st: State, f: FlowId, evs: seq<Event>, end: State) {
    && Enabled(st, RevokeAll(f))
    && Valid(cfg, Next(cfg, st, RevokeAll(f)), evs)
    && end == Run(cfg, Next(cfg, st, RevokeAll(f)), evs)
  }

  /**
   A replay's revoke-all finds the user's rows at step `from` and takes effect at step
   t. In every later state of every interleaving each active row of that user was
   inserted after `from`, and its ancestry through such rows ends at a login or at a
   refresh whose `findById` preceded t. If nothing ran in between, it was inserted
   after t.
   */
  lemma SurvivorsOfRevokeAll(cfg: Config, st: State, f: FlowId, evs: seq<Event>, end: State, i: Uuid)
    requires cfg.Valid() && Reachable(cfg, st) && After(cfg, st, f, evs, end)
    requires i in end.rows && end.rows[i].Active() && end.rows[i].userId == st.flows[f].userId
    ensures var from, t := st.flows[f].foundAt, st.step;
      && Inv(cfg, end) && from < t && from < end.birth[i].at
      && Escapes(cfg, end, i, from, t)
      && (from + 1 == t ==> t < end.birth[i].at)
  {
    ReachableInv(cfg, st);
    var st' := Next(cfg, st, RevokeAll(f));
    var from, t := st.flows[f].foundAt, st.step;
    assert FlowInv(cfg, st, st.flows[f]);
    NextInv(cfg, st, RevokeAll(f));
    InvReadsPrecede(cfg, st);
    RevokeAllCuts(cfg, st, f);
    Survives(cfg, st', evs, st.flows[f].userId, from, t, i);
  }

  lemma Survives(cfg: Config, st: State, evs: seq<Event>, user: Uuid, from: nat, t: nat, i: Uuid)
    requires cfg.Valid() && Inv(cfg, st) && Valid(cfg, st, evs) && Cut(st, user, from, t, false) && Quiet(st, t)
    requires var end := Run(cfg, st, evs); i in end.rows && end.rows[i].Active() && end.rows[i].userId == user
    ensures var end := Run(cfg, st, evs);
      && Inv(cfg, end) && from < end.birth[i].at && end.birth[i].at != t && Escapes(cfg, end, i, from, t)
  {
    CutRun(cfg, st, evs, user, from, t, false);
    QuietRun(cfg, st, evs, t);
    CutEscapes(cfg, Run(cfg, st, evs), user, from, t, i);
  }

  // ---- When revocation is final -------------------------------------------------

  /** Some request of the user has passed its checks and will still store a row. */
  ghost predicate InFlight(st: State, user: Uuid) {
    exists f | f in st.flows :: st.flows[f].Committed() && st.flows[f].claims.sub == user
  }

  ghost predicate NoLoginOf(evs: seq<Event>, user: Uuid) {
    forall k | 0 <= k < |evs| && evs[k].StartLogin? :: evs[k].user.id != user
  }

  /** Without a new login, no continuation ever gives the user an active row again. */
  ghost predicate Final(cfg: Config, st: State, user: Uuid) {
    forall evs | Valid(cfg, st, evs) && NoLoginOf(evs, user) :: NoneActive(Run(cfg, st, evs).rows, user)
  }

  lemma NothingInFlight(cfg: Config, st: State, e: Event, user: Uuid)
    requires Ready(cfg, st, e) && NoneActive(st.rows, user) && !InFlight(st, user)
    requires e.StartLogin? ==> e.user.id != user
    ensures !InFlight(Next(cfg, st, e), user)
  {
    if e.f in st.flows && st.flows[e.f].Committed() {
      IssuingEffect(cfg, st, e);
    } else {
      StartsIssuing(cfg, st, e);
    }
  }

  lemma DeadStep(cfg: Config, st: State, e: Event, user: Uuid)
    requires cfg.Valid() && Ready(cfg, st, e)
    requires NoneActive(st.rows, user) && !InFlight(st, user)
    requires e.StartLogin? ==> e.user.id != user
    ensures NoneActive(Next(cfg, st, e).rows, user) && !InFlight(Next(cfg, st, e), user)
  {
    var st' := Next(cfg, st, e);
    EffectSound(cfg, st, e);
    ApplyGrows(cfg, st, e.f, EffectOf(cfg, st, e), LoginsAfter(st, e));
    NothingInFlight(cfg, st, e, user);
    forall i | i in st'.rows && st'.rows[i].userId == user
      ensures !st'.rows[i].Active()
    {
      if i in st.rows { assert Ages(st.rows[i], st'.rows[i]); } else { IssuingEffect(cfg, st, e); }
    }
  }

  lemma {:induction false} DeadRun(cfg: Config, st: State, evs: seq<Event>, user: Uuid)
    requires cfg.Valid() && Inv(cfg, st) && Valid(cfg, st, evs)
    requires NoneActive(st.rows, user) && !InFlight(st, user) && NoLoginOf(evs, user)
    ensures NoneActive(Run(cfg, st, evs).rows, user)
    decreases |evs|
  {
    if evs == [] {
    } else {
      if !evs[0].Tick? {
        InvReady(cfg, st, evs[0]);
        DeadStep(cfg, st, evs[0], user);
      }
      NextInv(cfg, st, evs[0]);
      assert NoLoginOf(evs[1..], user);
      DeadRun(cfg, Next(cfg, st, evs[0]), evs[1..], user);
    }
  }

  /** The next event of a flow that is issuing tokens. */
  function NextOf(flow: Flow, f: FlowId, jti: Uuid): Event
    requires flow.Committed()
  {
    match flow
    case Issuing(_, _) => SignAccess(f)
    case HasAccess(_, _, _) => SignRefresh(f, jti)
    case HasRefresh(_, origin, _, _) => if origin.Login? then CreateRow(f) else InsertRow(f)
    case RowInserted(_, _, _, _, _) => ReplaceRow(f)
    case RowReplaced(_, _, _, _, _, _) => CommitRotation(f)
  }

  function Remaining(flow: Flow): nat {
    match flow
    case Issuing(_, _) => 5
    case HasAccess(_, _, _) => 4
    case HasRefresh(_, _, _, _) => 3
    case RowInserted(_, _, _, _, _) => 2
    case _ => 1
  }

  /** What a flow issuing tokens leaves alone: everyone else's progress and every row but its parent. */
  ghost predicate Undisturbed(st: State, end: State, f: FlowId)
    requires f in st.flows && st.flows[f].Committed()
  {
    && end.now == st.now
    && (forall g | g in st.flows && g != f :: g in end.flows && end.flows[g] == st.flows[g])
    && (forall k | k in st.rows && !(st.flows[f].origin.Rotation? && st.flows[f].origin.parent == k) ::
          k in end.rows && end.rows[k] == st.rows[k])
  }

  /** `end` is `st` after flow `f` alone finished and stored one new active row. */
  ghost predicate Stored(st: State, end: State, f: FlowId, i: Uuid)
    requires f in st.flows && st.flows[f].Committed()
  {
    && i !in st.rows && i in end.rows && i in end.birth
    && end.rows[i].Active() && end.rows[i].userId == st.flows[f].claims.sub
    && end.birth[i].origin == st.flows[f].origin
    && f !in end.flows
    && Undisturbed(st, end, f)
  }

  predicate Last(flow: Flow) {
    flow.RowReplaced? || (flow.HasRefresh? && flow.origin.Login?)
  }

  lemma LastIssuingStep(cfg: Config, st: State, f: FlowId, jti: Uuid)
    requires f in st.flows && st.flows[f].Committed() && Last(st.flows[f])
    requires Ready(cfg, st, NextOf(st.flows[f], f, jti))
    ensures Stored(st, Next(cfg, st, NextOf(st.flows[f], f, jti)), f, st.flows[f].refresh.jti)
  {
  }

  lemma OneIssuingStep(cfg: Config, st: State, f: FlowId, jti: Uuid)
    requires f in st.flows && st.flows[f].Committed() && !Last(st.flows[f])
    requires Ready(cfg, st, NextOf(st.flows[f], f, jti))
    ensures Advances(st, Next(cfg, st, NextOf(st.flows[f], f, jti)), f)
  {
  }

  lemma StoredLater(st: State, mid: State, end: State, f: FlowId, i: Uuid)
    requires f in st.flows && st.flows[f].Committed() && f in mid.flows && mid.flows[f].Committed()
    requires mid.flows[f].claims == st.flows[f].claims && mid.flows[f].origin == st.flows[f].origin
    requires mid.rows == st.rows && Undisturbed(st, mid, f) && Stored(mid, end, f, i)
    ensures Stored(st, end, f, i)
  {
  }

  lemma NextOfReady(cfg: Config, st: State, f: FlowId, jti: Uuid)
    requires Inv(cfg, st) && f in st.flows && st.flows[f].Committed() && jti !in st.minted
    ensures Ready(cfg, st, NextOf(st.flows[f], f, jti))
  {
    assert FlowInv(cfg, st, st.flows[f]);
    InvReady(cfg, st, NextOf(st.flows[f], f, jti));
  }

  /** One step of the way: the flow stores its row, or comes one step nearer and disturbs nothing. */
  ghost predicate Advances(st: State, next: State, f: FlowId)
    requires f in st.flows && st.flows[f].Committed()
  {
    if Last(st.flows[f]) then Stored(st, next, f, st.flows[f].refresh.jti)
    else
      && f in next.flows && next.flows[f].Committed() && Remaining(next.flows[f]) == Remaining(st.flows[f]) - 1
      && next.flows[f].claims == st.flows[f].claims && next.flows[f].origin == st.flows[f].origin
      && next.rows == st.rows && Undisturbed(st, next, f)
  }

  lemma FlowAdvances(cfg: Config, st: State, f: FlowId) returns (e: Event)
    requires cfg.Valid() && Inv(cfg, st) && f in st.flows && st.flows[f].Committed()
    ensures Enabled(st, e) && !e.StartLogin?
    ensures Inv(cfg, Next(cfg, st, e)) && Advances(st, Next(cfg, st, e), f)
  {
    var jti := FreshUuid(st.minted.Keys);
    e := NextOf(st.flows[f], f, jti);
    NextOfReady(cfg, st, f, jti);
    if Last(st.flows[f]) { LastIssuingStep(cfg, st, f, jti); } else { OneIssuingStep(cfg, st, f, jti); }
    NextInv(cfg, st, e);
  }

  lemma AdvanceThen(cfg: Config, st: State, f: FlowId, e: Event, rest: seq<Event>, i: Uuid)
    requires f in st.flows && st.flows[f].Committed() && !Last(st.flows[f])
    requires Enabled(st, e) && Advances(st, Next(cfg, st, e), f)
    requires Valid(cfg, Next(cfg, st, e), rest) && Stored(Next(cfg, st, e), Run(cfg, Next(cfg, st, e), rest), f, i)
    ensures Valid(cfg, st, [e] + rest) && Stored(st, Run(cfg, st, [e] + rest), f, i)
  {
    assert ([e] + rest)[1..] == rest;
    StoredLater(st, Next(cfg, st, e), Run(cfg, Next(cfg, st, e), rest), f, i);
  }

  /** A flow past its checks can always run to the end on its own. */
  lemma {:induction false} FlowCanFinish(cfg: Config, st: State, f: FlowId) returns (evs: seq<Event>, i: Uuid)
    requires cfg.Valid() && Inv(cfg, st) && f in st.flows && st.flows[f].Committed()
    ensures Valid(cfg, st, evs) && (forall k | 0 <= k < |evs| :: !evs[k].StartLogin?)
    ensures Stored(st, Run(cfg, st, evs), f, i)
    decreases Remaining(st.flows[f])
  {
    var e := FlowAdvances(cfg, st, f);
    if Last(st.flows[f]) {
      evs, i := [e], st.flows[f].refresh.jti;
      OneEvent(cfg, st, e);
    } else {
      var rest;
      rest, i := FlowCanFinish(cfg, Next(cfg, st, e), f);
      evs := [e] + rest;
      AdvanceThen(cfg, st, f, e, rest, i);
    }
  }

  lemma OneEvent(cfg: Config, st: State, e: Event)
    requires Enabled(st, e)
    ensures Valid(cfg, st, [e]) && Run(cfg, st, [e]) == Next(cfg, st, e)
  {
    assert [e][1..] == [];
    assert Valid(cfg, Next(cfg, st, e), []);
  }

  lemma {:induction false} ValidAppend(cfg: Config, st: State, a: seq<Event>, b: seq<Event>)
    requires Valid(cfg, st, a) && Valid(cfg, Run(cfg, st, a), b)
    ensures Valid(cfg, st, a + b) && Run(cfg, st, a + b) == Run(cfg, Run(cfg, st, a), b)
    decreases |a|
  {
    if a == [] {
      assert a + b == b;
    } else {
      ValidAppend(cfg, Next(cfg, st, a[0]), a[1..], b);
      assert (a + b)[1..] == a[1..] + b;
    }
  }

  lemma ReachableLater(cfg: Config, st: State, evs: seq<Event>)
    requires Reachable(cfg, st) && Valid(cfg, st, evs)
    ensures Reachable(cfg, Run(cfg, st, evs))
  {
    var before :| Valid(cfg, INIT, before) && Run(cfg, INIT, before) == st;
    ValidAppend(cfg, INIT, before, evs);
  }

  /**
   Exactly when revocation is final: with all of a user's rows revoked, they stay
   the user's last active rows (short of a new login) if and only if no request of
   that user was past its checks at that moment.
   */
  lemma RevocationFinalIff(cfg: Config, st: State, user: Uuid)
    requires cfg.Valid() && Reachable(cfg, st) && NoneActive(st.rows, user)
    ensures Final(cfg, st, user) <==> !InFlight(st, user)
  {
    ReachableInv(cfg, st);
    if !InFlight(st, user) {
      forall evs | Valid(cfg, st, evs) && NoLoginOf(evs, user)
        ensures NoneActive(Run(cfg, st, evs).rows, user)
      {
        DeadRun(cfg, st, evs, user);
      }
    } else {
      var f :| f in st.flows && st.flows[f].Committed() && st.flows[f].claims.sub == user;
      var evs, i := FlowCanFinish(cfg, st, f);
      assert NoLoginOf(evs, user);
      assert !NoneActive(Run(cfg, st, evs).rows, user);
    }
  }

  /**
   So a replay's revoke-all is final exactly when the rows it found are all the active
   ones the user still has and no request of that user is past its checks.
   */
  lemma RevokeAllFinalIff(cfg: Config, st: State, h: FlowId)
    requires cfg.Valid() && Reachable(cfg, st) && Enabled(st, RevokeAll(h))
    ensures var user := st.flows[h].userId;
      Final(cfg, Next(cfg, st, RevokeAll(h)), user)
      <==> ActiveRows(st.rows, user) <= st.flows[h].found && !InFlight(st, user)
  {
    var user, end := st.flows[h].userId, Next(cfg, st, RevokeAll(h));
    OneEvent(cfg, st, RevokeAll(h));
    ReachableLater(cfg, st, [RevokeAll(h)]);
    LeftActive(cfg, st, h);
    if NoneActive(end.rows, user) {
      RevocationFinalIff(cfg, end, user);
    } else {
      assert Valid(cfg, end, []) && !NoneActive(Run(cfg, end, []).rows, user);
    }
  }

  lemma LeftActive(cfg: Config, st: State, h: FlowId)
    requires Enabled(st, RevokeAll(h))
    ensures var user, end := st.flows[h].userId, Next(cfg, st, RevokeAll(h));
      && (NoneActive(end.rows, user) <==> ActiveRows(st.rows, user) <= st.flows[h].found)
      && (InFlight(end, user) <==> InFlight(st, user))
  {
    var user, end := st.flows[h].userId, Next(cfg, st, RevokeAll(h));
    if i :| i in ActiveRows(st.rows, user) && i !in st.flows[h].found {
      assert end.rows[i] == st.rows[i];
    }
    if InFlight(st, user) {
      var f :| f in st.flows && st.flows[f].Committed() && st.flows[f].claims.sub == user;
      assert f in end.flows;
    }
  }

  /** The login `i` descends from stored its row at step `t` or later. */
  ghost predicate RootedSince(cfg: Config, st: State, i: Uuid, t: nat) {
    Inv(cfg, st) && i in st.rows && t <= st.birth[Root(cfg, st, i)].at
  }

  lemma ActiveAfterCut(cfg: Config, st: State, user: Uuid, t: nat, i: Uuid)
    requires Inv(cfg, st) && Cut(st, user, t, t, true)
    requires i in st.rows && st.rows[i].Active() && st.rows[i].userId == user
    ensures RootedSince(cfg, st, i, t + 1)
  {
    assert i in st.birth;
    RootAfterCut(cfg, st, user, t, i);
  }

  lemma ActiveAfterRun(cfg: Config, st: State, user: Uuid, t: nat, evs: seq<Event>, i: Uuid)
    requires cfg.Valid() && Inv(cfg, st) && Cut(st, user, t, t, true) && Valid(cfg, st, evs)
    requires var end := Run(cfg, st, evs); i in end.rows && end.rows[i].Active() && end.rows[i].userId == user
    ensures RootedSince(cfg, Run(cfg, st, evs), i, t + 1)
  {
    CutRun(cfg, st, evs, user, t, t, true);
    ActiveAfterCut(cfg, Run(cfg, st, evs), user, t, i);
  }

  /**
   With nothing in flight, whatever interleaving follows, every active row of the
   user descends from a login whose row was stored afterwards.
   */
  lemma OnlyNewLoginsRevive(cfg: Config, st: State, user: Uuid, evs: seq<Event>, i: Uuid)
    requires cfg.Valid() && Reachable(cfg, st) && NoneActive(st.rows, user) && !InFlight(st, user)
    requires Valid(cfg, st, evs)
    requires var end := Run(cfg, st, evs); i in end.rows && end.rows[i].Active() && end.rows[i].userId == user
    ensures RootedSince(cfg, Run(cfg, st, evs), i, st.step)
  {
    ReachableInv(cfg, st);
    if st.step == 0 {
      RunInv(cfg, st, evs);
    } else {
      DeadCut(cfg, st, user);
      ActiveAfterRun(cfg, st, user, st.step - 1, evs, i);
    }
  }

  lemma DeadCut(cfg: Config, st: State, user: Uuid)
    requires RowInv(st) && NoneActive(st.rows, user) && !InFlight(st, user) && 0 < st.step
    ensures Cut(st, user, st.step - 1, st.step - 1, true)
  {
  }

  lemma {:induction false} RootAfterCut(cfg: Config, st: State, user: Uuid, t: nat, i: Uuid)
    requires Inv(cfg, st) && Cut(st, user, t, t, true)
    requires i in st.rows && st.rows[i].userId == user && t < st.birth[i].at
    ensures t < st.birth[Root(cfg, st, i)].at
    decreases st.birth[i].at
  {
    assert BirthOk(st, i);
    if st.birth[i].origin.Rotation? {
      RootAfterCut(cfg, st, user, t, st.birth[i].origin.parent);
    }
  }

  // ---- Access tokens after a revocation ------------------------------------------------

  /** Every access token of the user expires within an access lifetime of instant `t`. */
  ghost predicate SpentBy(cfg: Config, st: State, user: Uuid, t: nat) {
    forall a | a in st.accessSigned && a.claims.sub == user :: a.exp <= ExpOf(t, cfg.accessSpan)
  }

  lemma SpentStep(cfg: Config, st: State, e: Event, user: Uuid, t: nat)
    requires Enabled(st, e) && !InFlight(st, user) && SpentBy(cfg, st, user, t)
    ensures SpentBy(cfg, Next(cfg, st, e), user, t)
  {
    assert e.SignAccess? ==> st.flows[e.f].Committed();
  }

  lemma {:induction false} SpentRun(cfg: Config, st: State, evs: seq<Event>, user: Uuid, t: nat)
    requires cfg.Valid() && Inv(cfg, st) && Valid(cfg, st, evs) && SpentBy(cfg, st, user, t)
    requires NoneActive(st.rows, user) && !InFlight(st, user) && NoLoginOf(evs, user)
    ensures SpentBy(cfg, Run(cfg, st, evs), user, t)
    decreases |evs|
  {
    if evs == [] {
    } else {
      SpentStep(cfg, st, evs[0], user, t);
      if !evs[0].Tick? {
        InvReady(cfg, st, evs[0]);
        DeadStep(cfg, st, evs[0], user);
      }
      NextInv(cfg, st, evs[0]);
      assert NoLoginOf(evs[1..], user);
      SpentRun(cfg, Next(cfg, st, evs[0]), evs[1..], user, t);
    }
  }

  /**
   Revocation reaches access tokens within their lifetime: with all rows of a user
   revoked, nothing in flight and no new login, once an access lifetime has passed no
   access token of that user verifies any more, whatever else runs.
   */
  lemma RevocationReachesAccessTokens(cfg: Config, st: State, user: Uuid, evs: seq<Event>, token: Token)
    requires cfg.Valid() && Reachable(cfg, st) && NoneActive(st.rows, user) && !InFlight(st, user)
    requires Valid(cfg, st, evs) && NoLoginOf(evs, user) && st.now + cfg.accessSpan <= Run(cfg, st, evs).now
    requires token.claims.sub == user
    ensures !VerifiesAccess(Run(cfg, st, evs), token)
  {
    ReachableInv(cfg, st);
    TokensExpire(cfg, st);
    SpentRun(cfg, st, evs, user, st.now);
  }
}
