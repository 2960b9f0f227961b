/**
 What one request does, row by row and field by field: the meaning of `Serve` told
 from the table, the clock and the presented token alone.
 */
module AuthMeaning {
  import opened Prelude
  import opened Tokens
  import opened RefreshTokens
  import opened AuthSteps
  import opened AuthSerial

  // ---- How a table changes ---------------------------------------------------------

  /** A row as stored for a new refresh token: unrevoked, without successor, expiring a row lifetime from now. */
  ghost predicate NewRow(cfg: Config, row: Row, token: RefreshJwt, at: nat) {
    && row.id == token.jti
    && row.userId == token.claims.sub && row.tenantId == token.claims.tenantId
    && row.tokenHash.preimage == token
    && row.expiresAt == at + cfg.rowLifetime
    && row.revokedAt == None && row.replacedBy == None
  }

  /** One row more, all others as they were. */
  ghost predicate Adds(cfg: Config, before: Table, after: Table, token: RefreshJwt, at: nat) {
    && after.Keys == before.Keys + {token.jti}
    && NewRow(cfg, after[token.jti], token, at)
    && forall i | i in before :: after[i] == before[i]
  }

  /** One row more, its parent revoked and pointing at it, all others as they were. */
  ghost predicate Rotates(cfg: Config, before: Table, after: Table, parent: Uuid, token: RefreshJwt, at: nat) {
    && after.Keys == before.Keys + {token.jti}
    && NewRow(cfg, after[token.jti], token, at)
    && parent in before && after[parent] == before[parent].(revokedAt := Some(at), replacedBy := Some(token.jti))
    && forall i | i in before && i != parent :: after[i] == before[i]
  }

  /** All of the user's active rows revoked, all others as they were. */
  ghost predicate Kills(before: Table, after: Table, user: Uuid, at: nat) {
    && after.Keys == before.Keys
    && forall i | i in before ::
         after[i] == if before[i].userId == user && before[i].revokedAt == None then before[i].(revokedAt := Some(at))
                     else before[i]
  }

  /** One row revoked, all others as they were. */
  ghost predicate RevokesOne(before: Table, after: Table, id: Uuid, at: nat) {
    && after.Keys == before.Keys
    && forall i | i in before :: after[i] == if i == id then before[i].(revokedAt := Some(at)) else before[i]
  }

  /** Both tokens carry these claims; each expires by its own lifetime. */
  ghost predicate Grants(cfg: Config, outcome: Outcome, claims: Claims, jti: Uuid, at: nat) {
    && outcome.Granted?
    && outcome.access.claims == claims && outcome.refresh.claims == claims && outcome.refresh.jti == jti
    && at + cfg.accessSpan - 2_000 < outcome.access.exp * 1_000 <= at + cfg.accessSpan
    && at + cfg.refreshSpan - 2_000 < outcome.refresh.exp * 1_000 <= at + cfg.refreshSpan
  }

  // ---- Each request ------------------------------------------------------------------

  /** A login stores one row and hands out its tokens, unless its insert fails. */
  lemma LogInMeaning(cfg: Config, s: Store, wait: nat, user: User, jti: Uuid, fault: Fault)
    requires jti !in s.rows
    ensures var Reply(after, outcome) := Serve(cfg, s, Request(wait, LogIn(user, jti), fault));
      var at := s.now + wait;
      if fault == WriteFault then outcome == DatabaseFailure && after.rows == s.rows
      else
        && Grants(cfg, outcome, Claims(user.id, user.tenantId, user.role, user.email), jti, at)
        && Adds(cfg, s.rows, after.rows, outcome.refresh, at)
        && after.minted == s.minted[jti := outcome.refresh]
        && after.accessSigned == s.accessSigned + {outcome.access}
  {
    ExpWithinTwoSeconds(s.now + wait, cfg.accessSpan);
    ExpWithinTwoSeconds(s.now + wait, cfg.refreshSpan);
  }

  /** A token that does not verify, a failing read, and a token without a row change nothing. */
  lemma RefreshStopsEarly(cfg: Config, s: Store, wait: nat, token: Token, jti: Uuid, fault: Fault)
    requires var valid := VerifiesRefresh(s.minted, s.now + wait, token);
      !valid || fault == ReadFault || token.jti !in s.rows
    ensures var Reply(after, outcome) := Serve(cfg, s, Request(wait, Refresh(token, jti), fault));
      && after.rows == s.rows && after.minted == s.minted && after.accessSigned == s.accessSigned
      && outcome == if !VerifiesRefresh(s.minted, s.now + wait, token) then TokenRejected
                    else if fault == ReadFault then DatabaseFailure
                    else NoRecord
  {
  }

  /** A revoked row, or one stored for another token, costs the user every active row and yields no token. */
  lemma RefreshKills(cfg: Config, s: Store, wait: nat, token: Token, jti: Uuid, fault: Fault)
    requires VerifiesRefresh(s.minted, s.now + wait, token) && fault != ReadFault && token.jti in s.rows
    requires s.rows[token.jti].revokedAt != None || s.rows[token.jti].tokenHash.preimage != token
    ensures var Reply(after, outcome) := Serve(cfg, s, Request(wait, Refresh(token, jti), fault));
      && after.minted == s.minted && after.accessSigned == s.accessSigned
      && if fault == WriteFault then outcome == DatabaseFailure && after.rows == s.rows
         else
           && outcome == (if s.rows[token.jti].revokedAt != None then AlreadyUsed else HashMismatch)
           && Kills(s.rows, after.rows, s.rows[token.jti].userId, s.now + wait)
  {
  }

  /** The row's own token, the row active: rotated and granted with the token's own claims, unless the write fails. */
  lemma RefreshRotates(cfg: Config, s: Store, wait: nat, token: Token, jti: Uuid, fault: Fault)
    requires VerifiesRefresh(s.minted, s.now + wait, token) && fault != ReadFault && token.jti in s.rows
    requires s.rows[token.jti].revokedAt == None && s.rows[token.jti].tokenHash.preimage == token
    requires s.rows[token.jti].id == token.jti && jti !in s.rows
    ensures var Reply(after, outcome) := Serve(cfg, s, Request(wait, Refresh(token, jti), fault));
      var at := s.now + wait;
      if fault == WriteFault then outcome == DatabaseFailure && after.rows == s.rows
      else
        && Grants(cfg, outcome, token.claims, jti, at)
        && Rotates(cfg, s.rows, after.rows, token.jti, outcome.refresh, at)
        && after.minted == s.minted[jti := outcome.refresh]
        && after.accessSigned == s.accessSigned + {outcome.access}
  {
    ExpWithinTwoSeconds(s.now + wait, cfg.accessSpan);
    ExpWithinTwoSeconds(s.now + wait, cfg.refreshSpan);
  }

  /** A logout revokes exactly its token's row, if the token verifies and the update succeeds. */
  lemma LogOutMeaning(cfg: Config, s: Store, wait: nat, token: Token, fault: Fault)
    ensures var Reply(after, outcome) := Serve(cfg, s, Request(wait, LogOut(token), fault));
      && outcome == LoggedOut && after.minted == s.minted && after.accessSigned == s.accessSigned
      && if VerifiesRefresh(s.minted, s.now + wait, token) && fault != WriteFault
         then RevokesOne(s.rows, after.rows, token.jti, s.now + wait)
         else after.rows == s.rows
  {
  }

  /** A request fails only if the database does. */
  lemma NoFaultNoFailure(cfg: Config, s: Store, req: Request)
    requires Mirrors(s) && Draws(s, req)
    ensures Serve(cfg, s, req).outcome == DatabaseFailure ==> req.fault != NoFault
  {
  }

  // ---- What follows for a token ---------------------------------------------------------

  /**
   Presenting a verified token whose row exists, nothing failing: a revoked row ends all
   of the user's rows, an active one is replaced. There is no third way.
   */
  lemma PresentedTokenIsUsedOnce(cfg: Config, s: Store, req: Request)
    requires Mirrors(s) && Draws(s, req) && req.body.Refresh? && req.fault == NoFault
    requires VerifiesRefresh(s.minted, s.now + req.wait, req.body.token) && req.body.token.jti in s.rows
    ensures var Reply(after, outcome), token := Serve(cfg, s, req), req.body.token;
      if s.rows[token.jti].revokedAt != None
      then outcome == AlreadyUsed && NoneActive(after.rows, token.claims.sub)
      else
        && outcome.Granted? && outcome.refresh.jti == req.body.jti && outcome.refresh.claims == token.claims
        && !ActiveIn(after.rows, token.jti) && after.rows[token.jti].replacedBy == Some(req.body.jti)
        && ActiveIn(after.rows, req.body.jti)
  {
    var token := req.body.token;
    if s.rows[token.jti].revokedAt != None {
      RefreshKills(cfg, s, req.wait, token, req.body.jti, NoFault);
    } else {
      RefreshRotates(cfg, s, req.wait, token, req.body.jti, NoFault);
    }
  }

  /**
   Reuse detection from end to end: a replay of a token whose row is revoked, nothing
   failing, ends the whole family: no token of that user signed so far is granted
   again in any history, whatever fails in it.
   */
  lemma ReplayEndsTheFamily(cfg: Config, s: Store, replay: Request, reqs: seq<Request>, token: RefreshJwt,
      again: Request)
    requires Mirrors(s) && Draws(s, replay) && replay.body.Refresh? && replay.fault == NoFault
    requires VerifiesRefresh(s.minted, s.now + replay.wait, replay.body.token)
    requires replay.body.token.jti in s.rows && s.rows[replay.body.token.jti].revokedAt != None
    requires token.jti in s.minted && token.claims.sub == replay.body.token.claims.sub
    requires Served(cfg, Serve(cfg, s, replay).store, reqs)
    requires again.body.Refresh? && again.body.token == token
    ensures !Serve(cfg, ServeAll(cfg, Serve(cfg, s, replay).store, reqs), again).outcome.Granted?
  {
    PresentedTokenIsUsedOnce(cfg, s, replay);
    FamilyKill(cfg, s, replay, reqs, token, again);
  }

  /** After a successful rotation its parent's token is spent: presenting it again, nothing failing, is a replay. */
  lemma RotatedTokenIsSpent(cfg: Config, s: Store, first: Request, again: Request)
    requires Mirrors(s) && Draws(s, first) && first.body.Refresh?
    requires Serve(cfg, s, first).outcome.Granted?
    requires Draws(Serve(cfg, s, first).store, again) && again.fault == NoFault
    requires again.body.Refresh? && again.body.token == first.body.token
    requires VerifiesRefresh(s.minted, s.now + first.wait + again.wait, first.body.token)
    ensures var after := Serve(cfg, s, first).store;
      && Serve(cfg, after, again).outcome == AlreadyUsed
      && NoneActive(Serve(cfg, after, again).store.rows, first.body.token.claims.sub)
  {
    var token := first.body.token;
    ServeMirrors(cfg, s, first);
    RefreshRotates(cfg, s, first.wait, token, first.body.jti, first.fault);
    PresentedTokenIsUsedOnce(cfg, Serve(cfg, s, first).store, again);
  }

  /** A token logged out, nothing failing then, is never granted again, whatever is served and fails later. */
  lemma LoggedOutForGood(cfg: Config, s: Store, logout: Request, reqs: seq<Request>, again: Request)
    requires Mirrors(s) && logout.body.LogOut? && logout.fault != WriteFault
    requires VerifiesRefresh(s.minted, s.now + logout.wait, logout.body.token) && logout.body.token.jti in s.rows
    requires Served(cfg, Serve(cfg, s, logout).store, reqs)
    requires again.body.Refresh? && again.body.token == logout.body.token
    ensures !Serve(cfg, ServeAll(cfg, Serve(cfg, s, logout).store, reqs), again).outcome.Granted?
  {
    var jti, after := logout.body.token.jti, Serve(cfg, s, logout).store;
    LogOutMeaning(cfg, s, logout.wait, logout.body.token, logout.fault);
    ServeMirrors(cfg, s, logout);
    KilledForever(cfg, after, reqs, {jti});
    var end := ServeAll(cfg, after, reqs);
    assert jti in end.rows && !end.rows[jti].Active();
  }
}
