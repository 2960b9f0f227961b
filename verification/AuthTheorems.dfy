/**
 What refresh-token rotation guarantees in every interleaving of requests, and
 exactly where interleaving weakens the guarantees of serial execution.
 */
module AuthTheorems {
  import opened Prelude
  import opened Tokens
  import opened RefreshTokens
  import opened AuthSteps
  import opened AuthInvariant

  /** States some run of the deployed system passes through. */
  ghost predicate Reachable(cfg: Config, st: State) {
    exists evs :: Valid(cfg, INIT, evs) && Run(cfg, INIT, evs) == st
  }

  lemma ReachableInv(cfg: Config, st: State)
    requires cfg.Valid() && Reachable(cfg, st)
    ensures Inv(cfg, st)
  {
    var evs :| Valid(cfg, INIT, evs) && Run(cfg, INIT, evs) == st;
    RunInv(cfg, INIT, evs);
  }

  // ---- Replacement pointers --------------------------------------------------

  /** Consecutive elements follow `replaced_by_token_id`. */
  ghost predicate PointerPath(rows: Table, path: seq<Uuid>) {
    && (forall k | 0 <= k < |path| :: path[k] in rows)
    && (forall k | 0 <= k < |path| - 1 :: rows[path[k]].replacedBy == Some(path[k + 1]))
  }

  /** A pointer names a later-inserted row of the same user and tenant, on a revoked row; it is the newest child. */
  lemma PointerTarget(cfg: Config, st: State, p: Uuid)
    requires cfg.Valid() && Reachable(cfg, st)
    requires p in st.rows && st.rows[p].replacedBy.Some?
    ensures var c := st.rows[p].replacedBy.value;
      && c in st.rows && c in st.birth && p in st.birth
      && st.birth[p].at < st.birth[c].at
      && st.rows[c].userId == st.rows[p].userId && st.rows[c].tenantId == st.rows[p].tenantId
      && !st.rows[p].Active()
      && ChildOf(st, c, p)
      && (forall d | ChildOf(st, d, p) :: st.birth[d].at <= st.birth[c].at)
  {
    ReachableInv(cfg, st);
    var c := st.rows[p].replacedBy.value;
    assert ChildOf(st, c, p) && BirthOk(st, c);
    forall d | ChildOf(st, d, p)
      ensures st.birth[d].at <= st.birth[c].at
    {
      assert NotYounger(st, d, c);
    }
  }

  /** Births increase strictly along pointers. */
  lemma {:induction false} PointerPathsIncrease(cfg: Config, st: State, path: seq<Uuid>, j: nat, k: nat)
    requires cfg.Valid() && Reachable(cfg, st) && PointerPath(st.rows, path) && j <= k < |path|
    ensures path[j] in st.birth && path[k] in st.birth
    ensures st.birth[path[j]].at + (k - j) <= st.birth[path[k]].at < st.step
    decreases k - j
  {
    ReachableInv(cfg, st);
    if j < k {
      PointerPathsIncrease(cfg, st, path, j, k - 1);
      assert st.rows[path[k - 1]].replacedBy == Some(path[k - 1 + 1]);
      PointerTarget(cfg, st, path[k - 1]);
    }
  }

  /** So following pointers never repeats a row, and ends within as many hops as the run had steps. */
  lemma PointerPathsEnd(cfg: Config, st: State, path: seq<Uuid>)
    requires cfg.Valid() && Reachable(cfg, st) && PointerPath(st.rows, path)
    ensures forall j, k | 0 <= j < k < |path| :: path[j] != path[k]
    ensures |path| <= st.step
  {
    forall j, k | 0 <= j < k < |path|
      ensures path[j] != path[k]
    {
      PointerPathsIncrease(cfg, st, path, j, k);
    }
    if path != [] {
      PointerPathsIncrease(cfg, st, path, 0, |path| - 1);
    }
  }

  /** A revoked row stays revoked for ever, whatever runs next. */
  lemma RevocationIsPermanent(cfg: Config, st: State, evs: seq<Event>, i: Uuid)
    requires cfg.Valid() && Reachable(cfg, st) && Valid(cfg, st, evs)
    requires i in st.rows && !st.rows[i].Active()
    ensures i in Run(cfg, st, evs).rows && !Run(cfg, st, evs).rows[i].Active()
  {
    ReachableInv(cfg, st);
    RunInv(cfg, st, evs);
    assert Ages(st.rows[i], Run(cfg, st, evs).rows[i]);
  }

  // ---- Rotation is all or nothing ---------------------------------------------

  /**
   Before its commit a rotation shows neither write: no row has the new id and no
   pointer names it. A stored successor comes with both: its parent is revoked
   and points at it or at an even newer successor.
   */
  lemma RotationAllOrNothing(cfg: Config, st: State)
    requires cfg.Valid() && Reachable(cfg, st)
    ensures forall f, p | f in st.flows && st.flows[f].HoldsRefresh() && p in st.rows ::
      st.flows[f].refresh.jti !in st.rows && st.rows[p].replacedBy != Some(st.flows[f].refresh.jti)
    ensures forall p, c | c in st.rows && ChildOf(st, c, p) ::
      && p in st.rows && !st.rows[p].Active() && st.rows[p].replacedBy.Some?
      && NotYounger(st, c, st.rows[p].replacedBy.value)
  {
    ReachableInv(cfg, st);
    forall f, p | f in st.flows && st.flows[f].HoldsRefresh() && p in st.rows
      ensures st.flows[f].refresh.jti !in st.rows && st.rows[p].replacedBy != Some(st.flows[f].refresh.jti)
    {
      assert FlowInv(cfg, st, st.flows[f]);
      if st.rows[p].replacedBy.Some? { PointerTarget(cfg, st, p); }
    }
    forall p, c | c in st.rows && ChildOf(st, c, p)
      ensures p in st.rows && !st.rows[p].Active() && st.rows[p].replacedBy.Some?
      ensures NotYounger(st, c, st.rows[p].replacedBy.value)
    {
      assert BirthOk(st, c);
    }
  }

  // ---- Claims ------------------------------------------------------------------

  /** The login row a row descends from. */
  ghost function Root(cfg: Config, st: State, i: Uuid): (r: Uuid)
    requires Inv(cfg, st) && i in st.rows
    ensures r in st.rows && r in st.birth && st.birth[r].origin.Login? && st.birth[r].at <= st.birth[i].at
    decreases st.birth[i].at
  {
    assert BirthOk(st, i);
    if st.birth[i].origin.Login? then i else Root(cfg, st, st.birth[i].origin.parent)
  }

  /** Claims travel unchanged from the login at the root of the chain; rows agree with them. */
  lemma {:induction false} ClaimsOfRoot(cfg: Config, st: State, i: Uuid)
    requires Inv(cfg, st) && i in st.rows
    ensures i in st.minted && st.birth[Root(cfg, st, i)].origin.user in st.logins
    ensures st.minted[i].claims == ClaimsOf(st.birth[Root(cfg, st, i)].origin.user)
    ensures st.rows[i].userId == st.birth[Root(cfg, st, i)].origin.user.id
    ensures st.rows[i].tenantId == st.birth[Root(cfg, st, i)].origin.user.tenantId
    decreases st.birth[i].at
  {
    assert BirthOk(st, i);
    if st.birth[i].origin.Rotation? {
      ClaimsOfRoot(cfg, st, st.birth[i].origin.parent);
    }
  }

  /**
   Whatever a finished login or refresh handed out, after any number of rotations,
   names exactly the user of the login at the root of its chain.
   */
  lemma GrantedClaims(cfg: Config, st: State, f: FlowId)
    requires cfg.Valid() && Reachable(cfg, st)
    requires f in st.done && st.done[f].Granted?
    ensures Inv(cfg, st) && st.done[f].refresh.jti in st.rows
    ensures var user := st.birth[Root(cfg, st, st.done[f].refresh.jti)].origin.user;
      && user in st.logins
      && st.done[f].access.claims == Claims(user.id, user.tenantId, user.role, user.email)
      && st.done[f].refresh.claims == Claims(user.id, user.tenantId, user.role, user.email)
  {
    ReachableInv(cfg, st);
    assert st.done[f].refresh.jti in st.rows;
    ClaimsOfRoot(cfg, st, st.done[f].refresh.jti);
  }

  /**
   Whenever `refresh` finds a row, the row's hash is the presented token's and its user and tenant
   are the claims'.
   */
  lemma FoundRowMatchesToken(cfg: Config, st: State, f: FlowId)
    requires cfg.Valid() && Reachable(cfg, st) && Enabled(st, Read(f))
    requires st.flows[f].token.jti in st.rows
    ensures var token, record := st.flows[f].token, st.rows[st.flows[f].token.jti];
      && record.tokenHash == Sha256(token)
      && record.userId == token.claims.sub && record.tenantId == token.claims.tenantId
      && EffectOf(cfg, st, Read(f)).move
         == Continue(if record.Active() then Issuing(token.claims, Rotation(token.jti, st.step))
                     else Killing(token.claims.sub, Reused))
  {
    ReachableInv(cfg, st);
    assert FlowInv(cfg, st, st.flows[f]);
  }

  // ---- Expiry --------------------------------------------------------------------

  /** `refresh` never reads `expires_at`, yet a token it accepts is strictly before it. */
  lemma AcceptedBeforeRowExpiry(cfg: Config, st: State, token: RefreshJwt)
    requires cfg.Valid() && Reachable(cfg, st) && Verifies(st, token)
    ensures token.jti in st.rows ==> st.now < st.rows[token.jti].expiresAt
  {
    ReachableInv(cfg, st);
    UnexpiredInMilliseconds(token.exp, st.now);
  }

  /** No signed token expires later than one signed now would. */
  ghost predicate LifetimesBounded(cfg: Config, st: State) {
    && (forall a | a in st.accessSigned :: a.exp <= ExpOf(st.now, cfg.accessSpan))
    && (forall j | j in st.minted :: st.minted[j].exp <= ExpOf(st.now, cfg.refreshSpan))
  }

  lemma LifetimesStep(cfg: Config, st: State, e: Event)
    requires Enabled(st, e) && LifetimesBounded(cfg, st)
    ensures LifetimesBounded(cfg, Next(cfg, st, e))
  {
  }

  lemma {:induction false} LifetimesRun(cfg: Config, st: State, evs: seq<Event>)
    requires Valid(cfg, st, evs) && LifetimesBounded(cfg, st)
    ensures LifetimesBounded(cfg, Run(cfg, st, evs))
    decreases |evs|
  {
    if evs == [] {
    } else {
      LifetimesStep(cfg, st, evs[0]);
      LifetimesRun(cfg, Next(cfg, st, evs[0]), evs[1..]);
    }
  }

  /** In every interleaving, access and refresh tokens each keep to their own lifetime. */
  lemma TokensExpire(cfg: Config, st: State)
    requires Reachable(cfg, st)
    ensures LifetimesBounded(cfg, st)
  {
    var evs :| Valid(cfg, INIT, evs) && Run(cfg, INIT, evs) == st;
    LifetimesRun(cfg, INIT, evs);
  }

  /** Once signed, a refresh token verifies until it expires and not after, whatever runs in between. */
  lemma VerifiesUntilExpiry(cfg: Config, st: State, evs: seq<Event>, token: RefreshJwt)
    requires cfg.Valid() && Reachable(cfg, st) && Valid(cfg, st, evs)
    requires token.jti in st.minted && st.minted[token.jti] == token
    ensures Verifies(Run(cfg, st, evs), token) <==> Run(cfg, st, evs).now < token.exp * 1000
  {
    ReachableInv(cfg, st);
    RunInv(cfg, st, evs);
    UnexpiredInMilliseconds(token.exp, Run(cfg, st, evs).now);
  }

  /** From its signing on an access token verifies for its lifetime, short of two seconds, and not longer. */
  lemma AccessTokensLast(cfg: Config, st: State, f: FlowId, evs: seq<Event>)
    requires cfg.Valid() && Reachable(cfg, st) && Enabled(st, SignAccess(f))
    requires Valid(cfg, Next(cfg, st, SignAccess(f)), evs)
    ensures var signed, end := Next(cfg, st, SignAccess(f)), Run(cfg, Next(cfg, st, SignAccess(f)), evs);
      && f in signed.flows && signed.flows[f].HasAccess? && signed.flows[f].access.claims == st.flows[f].claims
      && (end.now + 2_000 <= st.now + cfg.accessSpan ==> VerifiesAccess(end, signed.flows[f].access))
      && (st.now + cfg.accessSpan <= end.now ==> !VerifiesAccess(end, signed.flows[f].access))
  {
    ReachableInv(cfg, st);
    NextInv(cfg, st, SignAccess(f));
    RunInv(cfg, Next(cfg, st, SignAccess(f)), evs);
    ExpWithinTwoSeconds(st.now, cfg.accessSpan);
  }

  /** The same of a refresh token, by its own lifetime. */
  lemma RefreshTokensLast(cfg: Config, st: State, f: FlowId, jti: Uuid, evs: seq<Event>)
    requires cfg.Valid() && Reachable(cfg, st) && Enabled(st, SignRefresh(f, jti))
    requires Valid(cfg, Next(cfg, st, SignRefresh(f, jti)), evs)
    ensures var signed, end := Next(cfg, st, SignRefresh(f, jti)), Run(cfg, Next(cfg, st, SignRefresh(f, jti)), evs);
      && f in signed.flows && signed.flows[f].HasRefresh?
      && signed.flows[f].refresh.claims == st.flows[f].claims && signed.flows[f].refresh.jti == jti
      && (end.now + 2_000 <= st.now + cfg.refreshSpan ==> Verifies(end, signed.flows[f].refresh))
      && (st.now + cfg.refreshSpan <= end.now ==> !Verifies(end, signed.flows[f].refresh))
  {
    ReachableInv(cfg, st);
    NextInv(cfg, st, SignRefresh(f, jti));
    RunInv(cfg, Next(cfg, st, SignRefresh(f, jti)), evs);
    ExpWithinTwoSeconds(st.now, cfg.refreshSpan);
  }

  /** A row expires exactly a row lifetime after the instant it is built. */
  lemma RowsExpireOnTime(cfg: Config, st: State, f: FlowId)
    requires f in st.flows && st.flows[f].HasRefresh?
    ensures var flow := st.flows[f];
      if flow.origin.Login?
      then
        var after := Next(cfg, st, CreateRow(f)).rows;
        flow.refresh.jti in after && after[flow.refresh.jti].expiresAt == st.now + cfg.rowLifetime
      else
        var moved := Next(cfg, st, InsertRow(f)).flows[f];
        moved.row.id == flow.refresh.jti && moved.row.expiresAt == st.now + cfg.rowLifetime
  {
  }

  // ---- Failures and logouts ---------------------------------------------------------

  /** A request ends in a database failure only if one of its own database operations failed. */
  lemma {:induction false} FailuresAreReal(cfg: Config, st: State, evs: seq<Event>, f: FlowId)
    requires Valid(cfg, st, evs) && !(f in st.done && st.done[f] == DatabaseFailure)
    requires var end := Run(cfg, st, evs); f in end.done && end.done[f] == DatabaseFailure
    ensures Fail(f) in evs
    decreases |evs|
  {
    if evs == [] {
    } else {
      var next := Next(cfg, st, evs[0]);
      if f in next.done && next.done[f] == DatabaseFailure {
        assert evs[0] == Fail(f);
      } else {
        FailuresAreReal(cfg, next, evs[1..], f);
        assert Fail(f) in evs[1..];
      }
    }
  }

  /** A logout with a verified token is bound to revoke that token's row; any other changes nothing. */
  lemma LogoutStarts(cfg: Config, st: State, f: FlowId, token: Token)
    requires Enabled(st, StartLogout(f, token))
    ensures var next := Next(cfg, st, StartLogout(f, token));
      && next.rows == st.rows
      && if Verifies(st, token) then f in next.flows && next.flows[f] == LoggingOut(token.jti)
         else f in next.done && next.done[f] == LoggedOut
  {
  }

  /** The revoke of a logout stamps exactly its row. */
  lemma LogoutRevokes(cfg: Config, st: State, f: FlowId)
    requires Enabled(st, RevokeOne(f))
    ensures var jti, next := st.flows[f].jti, Next(cfg, st, RevokeOne(f));
      && next.rows.Keys == st.rows.Keys && f in next.done && next.done[f] == LoggedOut
      && forall i | i in st.rows ::
           next.rows[i] == if i == jti then st.rows[i].(revokedAt := Some(st.now)) else st.rows[i]
  {
  }

  /** A logout still has its revoke to come, or the row is revoked. */
  ghost predicate LogoutTrack(st: State, f: FlowId, jti: Uuid) {
    && jti in st.rows
    && (!st.rows[jti].Active() || (f in st.flows && st.flows[f] == LoggingOut(jti) && f !in st.done))
  }

  lemma LogoutMoves(cfg: Config, st: State, e: Event, f: FlowId, jti: Uuid)
    requires Enabled(st, e) && e != Fail(f) && LogoutTrack(st, f, jti)
    requires jti in Next(cfg, st, e).rows && Ages(st.rows[jti], Next(cfg, st, e).rows[jti])
    ensures LogoutTrack(Next(cfg, st, e), f, jti)
  {
    if e == RevokeOne(f) && f in st.flows && st.flows[f] == LoggingOut(jti) { LogoutRevokes(cfg, st, f); }
  }

  lemma LogoutStep(cfg: Config, st: State, e: Event, f: FlowId, jti: Uuid)
    requires cfg.Valid() && Inv(cfg, st) && Enabled(st, e) && e != Fail(f) && LogoutTrack(st, f, jti)
    ensures LogoutTrack(Next(cfg, st, e), f, jti)
  {
    NextGrows(cfg, st, e);
    LogoutMoves(cfg, st, e, f, jti);
  }

  lemma {:induction false} LogoutRun(cfg: Config, st: State, evs: seq<Event>, f: FlowId, jti: Uuid)
    requires cfg.Valid() && Inv(cfg, st) && Valid(cfg, st, evs) && Fail(f) !in evs && LogoutTrack(st, f, jti)
    ensures LogoutTrack(Run(cfg, st, evs), f, jti)
    decreases |evs|
  {
    if evs == [] {
    } else {
      RestWithout(evs, Fail(f));
      NextInv(cfg, st, evs[0]);
      LogoutStep(cfg, st, evs[0], f, jti);
      LogoutRun(cfg, Next(cfg, st, evs[0]), evs[1..], f, jti);
    }
  }

  /** In every interleaving a logout that ends without a failure of its own leaves its row revoked. */
  lemma LoggedOutRowIsRevoked(cfg: Config, st: State, f: FlowId, token: RefreshJwt, evs: seq<Event>)
    requires cfg.Valid() && Reachable(cfg, st) && Enabled(st, StartLogout(f, token))
    requires Verifies(st, token) && token.jti in st.rows
    requires Valid(cfg, Next(cfg, st, StartLogout(f, token)), evs) && Fail(f) !in evs
    requires f in Run(cfg, Next(cfg, st, StartLogout(f, token)), evs).done
    ensures var end := Run(cfg, Next(cfg, st, StartLogout(f, token)), evs);
      token.jti in end.rows && !end.rows[token.jti].Active()
  {
    ReachableInv(cfg, st);
    var next := Next(cfg, st, StartLogout(f, token));
    NextInv(cfg, st, StartLogout(f, token));
    LogoutStarts(cfg, st, f, token);
    LogoutRun(cfg, next, evs, f, token.jti);
    RunInv(cfg, next, evs);
  }

  // ---- Outcomes of a delivered token ----------------------------------------------

  ghost predicate Delivered(st: State, token: RefreshJwt) {
    exists f | f in st.done :: st.done[f].Granted? && st.done[f].refresh == token
  }

  /** Past the finding that a presented token was used before. */
  predicate Replaying(flow: Flow) {
    (flow.Killing? || flow.Revoking?) && flow.reason == Reused
  }

  /** Where a refresh of a stored, verified token can be. */
  ghost predicate OnTrack(st: State, f: FlowId, token: RefreshJwt) {
    && token.jti in st.rows
    && (f in st.flows ==>
          || st.flows[f] == Verified(token)
          || Replaying(st.flows[f])
          || (st.flows[f].Committed() && st.flows[f].origin.Rotation? && st.flows[f].origin.parent == token.jti))
    && (f in st.done ==> st.done[f].Granted? || st.done[f] == AlreadyUsed || st.done[f] == DatabaseFailure)
    && (f in st.flows || f in st.done)
  }

  lemma OnTrackMove(cfg: Config, st: State, e: Event, token: RefreshJwt)
    requires Ready(cfg, st, e) && e.f in st.flows && OnTrack(st, e.f, token)
    ensures match EffectOf(cfg, st, e).move
      case Continue(flow) =>
        || Replaying(flow)
        || (flow.Committed() && flow.origin.Rotation? && flow.origin.parent == token.jti)
      case Finish(o) => o.Granted? || o == AlreadyUsed || o == DatabaseFailure
  {
    var flow := st.flows[e.f];
    if flow.Verified? {
      assert RowMatches(st.rows[token.jti], st.minted[token.jti]);
    } else if flow.Committed() {
      assert EffectOf(cfg, st, e).move.Continue? ==>
        EffectOf(cfg, st, e).move.flow.Committed() && EffectOf(cfg, st, e).move.flow.origin == flow.origin;
    }
  }

  lemma OnTrackApplied(cfg: Config, st: State, e: Event, f: FlowId, token: RefreshJwt)
    requires Ready(cfg, st, e) && OnTrack(st, f, token) && token.jti in Next(cfg, st, e).rows
    ensures OnTrack(Next(cfg, st, e), f, token)
  {
    if e.f == f && f in st.flows { OnTrackMove(cfg, st, e, token); }
  }

  lemma OnTrackStep(cfg: Config, st: State, e: Event, f: FlowId, token: RefreshJwt)
    requires cfg.Valid() && Inv(cfg, st) && Enabled(st, e) && OnTrack(st, f, token)
    ensures OnTrack(Next(cfg, st, e), f, token)
  {
    NextGrows(cfg, st, e);
    if !e.Tick? {
      InvReady(cfg, st, e);
      OnTrackApplied(cfg, st, e, f, token);
    }
  }

  lemma {:induction false} OnTrackRun(cfg: Config, st: State, evs: seq<Event>, f: FlowId, token: RefreshJwt)
    requires cfg.Valid() && Inv(cfg, st) && Valid(cfg, st, evs) && OnTrack(st, f, token)
    ensures OnTrack(Run(cfg, st, evs), f, token)
    decreases |evs|
  {
    if evs == [] {
    } else {
      OnTrackStep(cfg, st, evs[0], f, token);
      NextInv(cfg, st, evs[0]);
      OnTrackRun(cfg, Next(cfg, st, evs[0]), evs[1..], f, token);
    }
  }

  /**
   A refresh of a token that was ever returned to a client ends, unless the
   database fails, in exactly one of three ways: rejected when and only when it
   has expired, else granted or already used. The no-record and hash-mismatch
   branches cannot happen.
   */
  lemma DeliveredTokenOutcome(cfg: Config, st: State, f: FlowId, token: RefreshJwt, evs: seq<Event>)
    requires cfg.Valid() && Reachable(cfg, st) && Delivered(st, token)
    requires Enabled(st, StartRefresh(f, token)) && Valid(cfg, Next(cfg, st, StartRefresh(f, token)), evs)
    requires f in Run(cfg, Next(cfg, st, StartRefresh(f, token)), evs).done
    ensures var outcome := Run(cfg, Next(cfg, st, StartRefresh(f, token)), evs).done[f];
      if Unexpired(token.exp, st.now)
      then outcome.Granted? || outcome == AlreadyUsed || (outcome == DatabaseFailure && Fail(f) in evs)
      else outcome == TokenRejected
  {
    ReachableInv(cfg, st);
    var st' := Next(cfg, st, StartRefresh(f, token));
    NextInv(cfg, st, StartRefresh(f, token));
    var g :| g in st.done && st.done[g].Granted? && st.done[g].refresh == token;
    if Unexpired(token.exp, st.now) {
      OnTrackRun(cfg, st', evs, f, token);
      if Run(cfg, st', evs).done[f] == DatabaseFailure { FailuresAreReal(cfg, st', evs, f); }
    } else {
      assert st'.done[f] == TokenRejected;
      RunInv(cfg, st', evs);
    }
  }
}
