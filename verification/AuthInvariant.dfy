/**
 What every interleaving of logins, refreshes, logouts and failures keeps.
 */
module AuthInvariant {
  import opened Prelude
  import opened Tokens
  import opened RefreshTokens
  import opened AuthSteps

  // ---- Runs -------------------------------------------------------------

  ghost predicate Valid(cfg: Config, st: State, evs: seq<Event>)
    decreases |evs|
  {
    evs == [] || (Enabled(st, evs[0]) && Valid(cfg, Next(cfg, st, evs[0]), evs[1..]))
  }

  ghost function Run(cfg: Config, st: State, evs: seq<Event>): State
    requires Valid(cfg, st, evs)
    decreases |evs|
  {
    if evs == [] then st else Run(cfg, Next(cfg, st, evs[0]), evs[1..])
  }

  // ---- The invariant, part by part ---------------------------------------

  /** Signed refresh tokens are indexed by their own `jti` and carry the claims of some login. */
  ghost predicate MintInv(st: State) {
    forall j | j in st.minted ::
      st.minted[j].jti == j && KnownClaims(st, st.minted[j].claims)
  }

  /** Claims are those of a user who logged in. */
  ghost predicate KnownClaims(st: State, c: Claims) {
    User(c.sub, c.tenantId, c.role, c.email) in st.logins
  }

  ghost predicate AccessInv(st: State) {
    forall a | a in st.accessSigned :: KnownClaims(st, a.claims)
  }

  /** A row is the stored form of the token signed under its id, and outlives that token. */
  ghost predicate RowMatches(row: Row, token: RefreshJwt) {
    && row.id == token.jti
    && row.userId == token.claims.sub
    && row.tenantId == token.claims.tenantId
    && row.tokenHash == Sha256(token)
    && token.exp * 1000 <= row.expiresAt
  }

  ghost predicate RowInv(st: State) {
    && st.rows.Keys == st.birth.Keys
    && forall i | i in st.rows ::
         i in st.minted && RowMatches(st.rows[i], st.minted[i]) && st.birth[i].at < st.step
  }

  /** Rows with a parent: the parent is an older, revoked row of the same claims, read before the child was born. */
  ghost predicate BornOf(st: State, i: Uuid, p: Uuid, readAt: nat)
    requires i in st.birth && i in st.minted
  {
    && p in st.rows && p in st.birth && p in st.minted
    && st.birth[p].at < readAt < st.birth[i].at
    && !st.rows[p].Active()
    && st.minted[i].claims == st.minted[p].claims
  }

  ghost predicate BirthOk(st: State, i: Uuid)
    requires i in st.birth && i in st.minted
  {
    match st.birth[i].origin
    case Login(user) => user in st.logins && st.minted[i].claims == ClaimsOf(user)
    case Rotation(p, readAt) => BornOf(st, i, p, readAt)
  }

  ghost predicate BirthInv(st: State) {
    forall i | i in st.birth && i in st.minted :: BirthOk(st, i)
  }

  ghost predicate ChildOf(st: State, c: Uuid, p: Uuid) {
    c in st.birth && st.birth[c].origin.Rotation? && st.birth[c].origin.parent == p
  }

  /** The replacement pointer of a row is exactly its most recently born child, if it has one. */
  ghost predicate PointerInv(st: State) {
    && (forall p | p in st.rows && st.rows[p].replacedBy.Some? :: ChildOf(st, st.rows[p].replacedBy.value, p))
    && (forall p, c | p in st.rows && ChildOf(st, c, p) ::
          st.rows[p].replacedBy.Some? && NotYounger(st, c, st.rows[p].replacedBy.value))
  }

  ghost predicate NotYounger(st: State, c: Uuid, d: Uuid) {
    c in st.birth && d in st.birth && st.birth[c].at <= st.birth[d].at
  }

  /** Any two rotations of one row overlap: each had read it before the other's child was born. */
  ghost predicate OverlapInv(st: State) {
    forall p, c, d | ChildOf(st, c, p) && ChildOf(st, d, p) ::
      st.birth[c].origin.readAt < st.birth[d].at
  }

  ghost predicate OriginInv(st: State, claims: Claims, origin: Origin) {
    && KnownClaims(st, claims)
    && match origin
       case Login(user) => user in st.logins && claims == ClaimsOf(user)
       case Rotation(p, readAt) =>
         && p in st.rows && p in st.birth && p in st.minted
         && st.minted[p].claims == claims
         && st.birth[p].at < readAt < st.step
         && (forall c | ChildOf(st, c, p) :: readAt < st.birth[c].at)
  }

  ghost predicate RefreshInv(cfg: Config, st: State, claims: Claims, refresh: RefreshJwt) {
    && refresh.jti in st.minted && st.minted[refresh.jti] == refresh
    && refresh.claims == claims
    && refresh.jti !in st.rows
    && refresh.exp * 1000 <= st.now + cfg.rowLifetime
  }

  ghost predicate PendingRowInv(row: Row, refresh: RefreshJwt) {
    RowMatches(row, refresh) && row.Active() && row.replacedBy.None?
  }

  /** Only the user's rows were found, and those active but not found were inserted after the search. */
  ghost predicate FoundInv(st: State, user: Uuid, found: set<Uuid>, foundAt: nat) {
    && foundAt < st.step
    && (forall i | i in found :: i in st.rows && st.rows[i].userId == user)
    && (forall i | i in st.rows && i in st.birth && st.rows[i].userId == user && st.rows[i].Active() && i !in found ::
          foundAt < st.birth[i].at)
  }

  ghost predicate FlowInv(cfg: Config, st: State, flow: Flow) {
    match flow
    case Verified(token) => token.jti in st.minted && st.minted[token.jti] == token
    case Killing(_, reason) => reason == Reused
    case Revoking(user, reason, found, foundAt) => reason == Reused && FoundInv(st, user, found, foundAt)
    case Issuing(claims, origin) => OriginInv(st, claims, origin)
    case HasAccess(claims, origin, access) =>
      OriginInv(st, claims, origin) && access.claims == claims && access in st.accessSigned
    case HasRefresh(claims, origin, access, refresh) =>
      OriginInv(st, claims, origin) && access.claims == claims && access in st.accessSigned
      && RefreshInv(cfg, st, claims, refresh)
    case RowInserted(claims, origin, access, refresh, row) =>
      OriginInv(st, claims, origin) && access.claims == claims && access in st.accessSigned
      && RefreshInv(cfg, st, claims, refresh) && PendingRowInv(row, refresh) && origin.Rotation?
    case RowReplaced(claims, origin, access, refresh, row, _) =>
      OriginInv(st, claims, origin) && access.claims == claims && access in st.accessSigned
      && RefreshInv(cfg, st, claims, refresh) && PendingRowInv(row, refresh) && origin.Rotation?
    case LoggingOut(jti) => jti in st.minted
  }

  ghost predicate FlowsInv(cfg: Config, st: State) {
    forall f | f in st.flows :: FlowInv(cfg, st, st.flows[f])
  }

  /** Two flows never hold the same signed refresh token. */
  ghost predicate DistinctInv(st: State) {
    forall f, g | f in st.flows && g in st.flows && f != g
                  && st.flows[f].HoldsRefresh() && st.flows[g].HoldsRefresh() ::
      st.flows[f].refresh.jti != st.flows[g].refresh.jti
  }

  /** Finished requests: a granted refresh token is stored; the hash branch never ran. */
  ghost predicate DoneInv(st: State) {
    forall f | f in st.done ::
      && f !in st.flows
      && st.done[f] != HashMismatch
      && (st.done[f].Granted? ==>
            && st.done[f].refresh.jti in st.rows
            && st.done[f].refresh.jti in st.minted
            && st.minted[st.done[f].refresh.jti] == st.done[f].refresh
            && st.done[f].access in st.accessSigned
            && st.done[f].access.claims == st.done[f].refresh.claims)
  }

  ghost predicate Inv(cfg: Config, st: State) {
    && MintInv(st)
    && AccessInv(st)
    && RowInv(st)
    && BirthInv(st)
    && PointerInv(st)
    && OverlapInv(st)
    && FlowsInv(cfg, st)
    && DistinctInv(st)
    && DoneInv(st)
  }

  // ---- Preservation -------------------------------------------------------

  /** How one row may change over time. */
  ghost predicate Ages(row: Row, row': Row) {
    && row'.id == row.id && row'.userId == row.userId && row'.tenantId == row.tenantId
    && row'.tokenHash == row.tokenHash && row'.expiresAt == row.expiresAt
    && (!row.Active() ==> !row'.Active())
    && (row.replacedBy.Some? ==> row'.replacedBy.Some?)
  }

  ghost predicate TableGrows(rows: Table, rows': Table) {
    forall i | i in rows :: i in rows' && Ages(rows[i], rows'[i])
  }

  ghost predicate HistoryGrows(st: State, st': State) {
    && st.now <= st'.now
    && st.step <= st'.step
    && st.logins <= st'.logins
    && st.accessSigned <= st'.accessSigned
    && (forall j | j in st.minted :: j in st'.minted && st'.minted[j] == st.minted[j])
    && (forall i | i in st.birth :: i in st'.birth && st'.birth[i] == st.birth[i])
    && (forall i | i in st'.birth && i !in st.birth :: st.step <= st'.birth[i].at)
    && (forall f | f in st.done :: f in st'.done && st'.done[f] == st.done[f])
  }

  /** What is never undone: rows, births, signatures and revocations only accumulate. */
  ghost predicate Grows(st: State, st': State) {
    HistoryGrows(st, st') && TableGrows(st.rows, st'.rows)
  }

  /** A write touches the table only through ids nobody used before. */
  ghost predicate FreshWrite(st: State, w: Write) {
    w.Insert? || w.Rotate? ==>
      && w.row.id !in st.rows && w.row.id !in st.birth && w.row.id in st.minted
      && RowMatches(w.row, st.minted[w.row.id])
      && w.row.Active() && w.row.replacedBy.None?
      && OriginInv(st, st.minted[w.row.id].claims, w.origin)
      && (w.Insert? <==> w.origin.Login?)
  }

  lemma TableStepGrows(st: State, w: Write)
    requires FreshWrite(st, w)
    ensures TableGrows(st.rows, RowsAfter(st.rows, w, st.now))
  {
  }

  /** The invariants that speak of the table and its history only. */
  ghost predicate TableInv(st: State) {
    RowInv(st) && BirthInv(st) && PointerInv(st) && OverlapInv(st)
  }

  /** The table part of a step: `w` applied to rows and births, the rest only growing. */
  ghost predicate TableStep(st: State, st': State, w: Write) {
    && st'.rows == RowsAfter(st.rows, w, st.now)
    && st'.birth == BirthAfter(st.birth, w, st.step)
    && st'.step == st.step + 1
    && st.logins <= st'.logins
    && (forall j | j in st.minted :: j in st'.minted && st'.minted[j] == st.minted[j])
  }

  lemma RowInvKept(st: State, st': State, w: Write)
    requires RowInv(st) && FreshWrite(st, w) && TableStep(st, st', w)
    ensures RowInv(st')
  {
    TableStepGrows(st, w);
    assert st'.rows.Keys == st'.birth.Keys;
    forall i | i in st'.rows
      ensures i in st'.minted && RowMatches(st'.rows[i], st'.minted[i]) && st'.birth[i].at < st'.step
    {
      if i in st.rows { assert Ages(st.rows[i], st'.rows[i]); }
    }
  }

  lemma BirthInvKept(st: State, st': State, w: Write)
    requires TableInv(st) && FreshWrite(st, w) && TableStep(st, st', w)
    ensures BirthInv(st')
  {
    TableStepGrows(st, w);
    forall i | i in st'.birth && i in st'.minted
      ensures BirthOk(st', i)
    {
      if i in st.birth { assert BirthOk(st, i); }
    }
  }

  /** Children after a step: the old ones, and the row just rotated in. */
  lemma ChildrenAfter(st: State, st': State, w: Write, c: Uuid, p: Uuid)
    requires FreshWrite(st, w) && TableStep(st, st', w)
    ensures ChildOf(st', c, p) <==>
      ChildOf(st, c, p) || (w.Rotate? && c == w.row.id && w.origin.Rotation? && w.origin.parent == p)
  {
  }

  lemma PointersLeadToChildren(st: State, st': State, w: Write, p: Uuid)
    requires RowInv(st) && PointerInv(st) && FreshWrite(st, w) && TableStep(st, st', w)
    requires p in st'.rows && st'.rows[p].replacedBy.Some?
    ensures ChildOf(st', st'.rows[p].replacedBy.value, p)
  {
    if !(w.Rotate? && w.origin.parent == p) {
      assert p in st.rows && st'.rows[p].replacedBy == st.rows[p].replacedBy;
      assert ChildOf(st, st.rows[p].replacedBy.value, p);
    }
  }

  lemma ChildrenArePointedPast(st: State, st': State, w: Write, p: Uuid, c: Uuid)
    requires RowInv(st) && BirthInv(st) && PointerInv(st) && FreshWrite(st, w) && TableStep(st, st', w)
    requires p in st'.rows && ChildOf(st', c, p)
    ensures st'.rows[p].replacedBy.Some? && NotYounger(st', c, st'.rows[p].replacedBy.value)
  {
    ChildrenAfter(st, st', w, c, p);
    if w.Rotate? && w.origin.parent == p {
      assert c in st.birth ==> st.birth[c].at < st.step;
    } else {
      assert c in st.birth && BirthOk(st, c);
      assert st'.rows[p].replacedBy == st.rows[p].replacedBy;
      assert NotYounger(st, c, st.rows[p].replacedBy.value);
    }
  }

  lemma PointerInvKept(st: State, st': State, w: Write)
    requires TableInv(st) && FreshWrite(st, w) && TableStep(st, st', w)
    ensures PointerInv(st')
  {
    forall p | p in st'.rows && st'.rows[p].replacedBy.Some?
      ensures ChildOf(st', st'.rows[p].replacedBy.value, p)
    {
      PointersLeadToChildren(st, st', w, p);
    }
    forall p, c | p in st'.rows && ChildOf(st', c, p)
      ensures st'.rows[p].replacedBy.Some? && NotYounger(st', c, st'.rows[p].replacedBy.value)
    {
      ChildrenArePointedPast(st, st', w, p, c);
    }
  }

  lemma OverlapInvKept(st: State, st': State, w: Write)
    requires TableInv(st) && FreshWrite(st, w) && TableStep(st, st', w)
    ensures OverlapInv(st')
  {
    forall p, c, d | ChildOf(st', c, p) && ChildOf(st', d, p)
      ensures st'.birth[c].origin.readAt < st'.birth[d].at
    {
      ChildrenAfter(st, st', w, c, p);
      ChildrenAfter(st, st', w, d, p);
      if c in st.birth { assert BirthOk(st, c); }
    }
  }

  lemma FoundStable(st: State, st': State, user: Uuid, found: set<Uuid>, foundAt: nat)
    requires RowInv(st) && Grows(st, st') && FoundInv(st, user, found, foundAt)
    ensures FoundInv(st', user, found, foundAt)
  {
    forall i | i in st'.rows && i in st'.birth && st'.rows[i].userId == user && st'.rows[i].Active() && i !in found
      ensures foundAt < st'.birth[i].at
    {
      if i in st.rows { assert Ages(st.rows[i], st'.rows[i]); }
    }
    forall i | i in found
      ensures i in st'.rows && st'.rows[i].userId == user
    {
      assert Ages(st.rows[i], st'.rows[i]);
    }
  }

  /** A flow that did not move keeps its invariant, provided nobody stored its token. */
  lemma FlowStable(cfg: Config, st: State, st': State, flow: Flow)
    requires FlowInv(cfg, st, flow)
    requires RowInv(st) && Grows(st, st')
    requires flow.HoldsRefresh() ==> flow.refresh.jti !in st'.rows
    ensures FlowInv(cfg, st', flow)
  {
    if flow.Committed() && flow.origin.Rotation? {
      var Rotation(p, readAt) := flow.origin;
      forall c | ChildOf(st', c, p)
        ensures readAt < st'.birth[c].at
      {
        if c in st.birth { assert ChildOf(st, c, p); }
      }
    } else if flow.Revoking? {
      FoundStable(st, st', flow.userId, flow.found, flow.foundAt);
    }
  }

  // ---- One effect ------------------------------------------------------------

  ghost predicate Holds(st: State, f: FlowId, token: RefreshJwt) {
    f in st.flows && st.flows[f].HoldsRefresh() && st.flows[f].refresh == token
  }

  /** What the moving flow guarantees about its effect. */
  ghost predicate Sound(cfg: Config, st: State, f: FlowId, effect: Effect, who: set<User>) {
    && st.logins <= who
    && f !in st.done
    && FreshWrite(st, effect.write)
    && (effect.write.Insert? || effect.write.Rotate? ==>
          effect.move.Finish? && effect.write.row.id in st.minted && Holds(st, f, st.minted[effect.write.row.id]))
    && (effect.signature.SignedRefresh? ==>
          && effect.signature.refresh.jti !in st.minted && effect.signature.refresh.jti !in st.rows
          && KnownClaims(st, effect.signature.refresh.claims))
    && (effect.signature.SignedAccess? ==> KnownClaims(st, effect.signature.access.claims))
    && (effect.move.Continue? && effect.move.flow.HoldsRefresh() ==>
          || effect.signature == SignedRefresh(effect.move.flow.refresh)
          || Holds(st, f, effect.move.flow.refresh))
    && (effect.move.Finish? ==> effect.move.outcome != HashMismatch)
    && (effect.move.Finish? && effect.move.outcome.Granted? ==>
          && (effect.write.Insert? || effect.write.Rotate?)
          && effect.write.row.id == effect.move.outcome.refresh.jti
          && Holds(st, f, effect.move.outcome.refresh)
          && effect.move.outcome.access in st.accessSigned
          && effect.move.outcome.access.claims == effect.move.outcome.refresh.claims)
  }

  lemma ApplyGrows(cfg: Config, st: State, f: FlowId, effect: Effect, who: set<User>)
    requires Sound(cfg, st, f, effect, who)
    ensures Grows(st, Apply(st, f, effect, who))
  {
    TableStepGrows(st, effect.write);
  }

  /** A write stores the moving flow's token, never another flow's. */
  lemma OtherTokensNotStored(cfg: Config, st: State, f: FlowId, effect: Effect, who: set<User>, g: FlowId)
    requires FlowsInv(cfg, st) && DistinctInv(st) && Sound(cfg, st, f, effect, who)
    requires g in st.flows && g != f && st.flows[g].HoldsRefresh()
    ensures st.flows[g].refresh.jti !in Apply(st, f, effect, who).rows
  {
    assert FlowInv(cfg, st, st.flows[g]);
  }

  lemma FlowsInvKept(cfg: Config, st: State, f: FlowId, effect: Effect, who: set<User>)
    requires RowInv(st) && FlowsInv(cfg, st) && DistinctInv(st) && Sound(cfg, st, f, effect, who)
    requires effect.move.Continue? ==> FlowInv(cfg, Apply(st, f, effect, who), effect.move.flow)
    ensures FlowsInv(cfg, Apply(st, f, effect, who))
  {
    var st' := Apply(st, f, effect, who);
    ApplyGrows(cfg, st, f, effect, who);
    forall g | g in st'.flows
      ensures FlowInv(cfg, st', st'.flows[g])
    {
      if g != f {
        assert FlowInv(cfg, st, st.flows[g]);
        if st.flows[g].HoldsRefresh() { OtherTokensNotStored(cfg, st, f, effect, who, g); }
        FlowStable(cfg, st, st', st.flows[g]);
      }
    }
  }

  lemma DistinctInvKept(cfg: Config, st: State, f: FlowId, effect: Effect, who: set<User>)
    requires FlowsInv(cfg, st) && DistinctInv(st) && Sound(cfg, st, f, effect, who)
    ensures DistinctInv(Apply(st, f, effect, who))
  {
    var st' := Apply(st, f, effect, who);
    forall g | g in st.flows
      ensures st.flows[g].HoldsRefresh() ==> st.flows[g].refresh.jti in st.minted
    {
      assert FlowInv(cfg, st, st.flows[g]);
    }
  }

  lemma DoneInvKept(cfg: Config, st: State, f: FlowId, effect: Effect, who: set<User>)
    requires FlowsInv(cfg, st) && DoneInv(st) && Sound(cfg, st, f, effect, who)
    ensures DoneInv(Apply(st, f, effect, who))
  {
    ApplyGrows(cfg, st, f, effect, who);
    assert f in st.flows ==> FlowInv(cfg, st, st.flows[f]);
  }

  lemma HistoryInvKept(cfg: Config, st: State, f: FlowId, effect: Effect, who: set<User>)
    requires MintInv(st) && AccessInv(st) && Sound(cfg, st, f, effect, who)
    ensures MintInv(Apply(st, f, effect, who)) && AccessInv(Apply(st, f, effect, who))
  {
  }

  lemma ApplyInv(cfg: Config, st: State, f: FlowId, effect: Effect, who: set<User>)
    requires Inv(cfg, st) && Sound(cfg, st, f, effect, who)
    requires effect.move.Continue? ==> FlowInv(cfg, Apply(st, f, effect, who), effect.move.flow)
    ensures Inv(cfg, Apply(st, f, effect, who))
  {
    var st' := Apply(st, f, effect, who);
    RowInvKept(st, st', effect.write);
    BirthInvKept(st, st', effect.write);
    PointerInvKept(st, st', effect.write);
    OverlapInvKept(st, st', effect.write);
    FlowsInvKept(cfg, st, f, effect, who);
    DistinctInvKept(cfg, st, f, effect, who);
    DoneInvKept(cfg, st, f, effect, who);
    HistoryInvKept(cfg, st, f, effect, who);
  }

  // ---- Every event has a sound effect ---------------------------------------

  /** The moving flow's own knowledge is all its effect rests on. */
  ghost predicate Ready(cfg: Config, st: State, e: Event) {
    && Enabled(st, e) && !e.Tick?
    && RowInv(st)
    && e.f !in st.done
    && (e.f in st.flows ==> FlowInv(cfg, st, st.flows[e.f]))
  }

  lemma InvReady(cfg: Config, st: State, e: Event)
    requires Inv(cfg, st) && Enabled(st, e) && !e.Tick?
    ensures Ready(cfg, st, e)
  {
    assert forall f | f in st.done :: f !in st.flows;
  }

  lemma EffectSound(cfg: Config, st: State, e: Event)
    requires cfg.Valid() && Ready(cfg, st, e)
    ensures Sound(cfg, st, e.f, EffectOf(cfg, st, e), LoginsAfter(st, e))
  {
  }

  lemma ReadFlowInv(cfg: Config, st: State, f: FlowId)
    requires cfg.Valid() && Inv(cfg, st) && Enabled(st, Read(f))
    requires EffectOf(cfg, st, Read(f)).move.Continue?
    ensures FlowInv(cfg, Next(cfg, st, Read(f)), EffectOf(cfg, st, Read(f)).move.flow)
  {
    var st' := Next(cfg, st, Read(f));
    var token := st.flows[f].token;
    assert FlowInv(cfg, st, st.flows[f]);
    var record := st.rows[token.jti];
    if record.Active() {
      forall c ensures !ChildOf(st', c, record.id) {
        assert c in st.birth ==> BirthOk(st, c);
      }
    }
  }

  /** The search for a user's active rows misses none. */
  lemma FoundNow(cfg: Config, st: State, f: FlowId)
    requires Ready(cfg, st, FindAll(f))
    ensures FlowInv(cfg, Next(cfg, st, FindAll(f)), EffectOf(cfg, st, FindAll(f)).move.flow)
  {
  }

  /** The moved flow satisfies its invariant at its new place. */
  lemma MovedFlowInv(cfg: Config, st: State, e: Event)
    requires cfg.Valid() && Ready(cfg, st, e) && !e.Read?
    requires EffectOf(cfg, st, e).move.Continue?
    ensures FlowInv(cfg, Next(cfg, st, e), EffectOf(cfg, st, e).move.flow)
  {
    if e.FindAll? {
      FoundNow(cfg, st, e.f);
    } else if e.f in st.flows {
      var flow, st' := st.flows[e.f], Next(cfg, st, e);
      EffectSound(cfg, st, e);
      ApplyGrows(cfg, st, e.f, EffectOf(cfg, st, e), LoginsAfter(st, e));
      if e.SignRefresh? { ExpNeverLaterThanRow(st.now, st.now, cfg.refreshSpan, cfg.rowLifetime); }
      FlowStable(cfg, st, st', Issuing(flow.claims, flow.origin));
    }
  }

  lemma NextGrows(cfg: Config, st: State, e: Event)
    requires cfg.Valid() && Inv(cfg, st) && Enabled(st, e)
    ensures Grows(st, Next(cfg, st, e))
  {
    if !e.Tick? {
      InvReady(cfg, st, e);
      EffectSound(cfg, st, e);
      ApplyGrows(cfg, st, e.f, EffectOf(cfg, st, e), LoginsAfter(st, e));
    }
  }

  lemma TickFlows(cfg: Config, st: State, st': State)
    requires RowInv(st) && FlowsInv(cfg, st)
    requires st' == st.(now := st'.now, step := st.step + 1) && st.now <= st'.now
    ensures FlowsInv(cfg, st')
  {
    forall g | g in st'.flows
      ensures FlowInv(cfg, st', st'.flows[g])
    {
      assert FlowInv(cfg, st, st.flows[g]);
      FlowStable(cfg, st, st', st.flows[g]);
    }
  }

  lemma TickInv(cfg: Config, st: State, ms: nat)
    requires Inv(cfg, st)
    ensures Inv(cfg, Next(cfg, st, Tick(ms)))
  {
    var st' := Next(cfg, st, Tick(ms));
    RowInvKept(st, st', NoWrite);
    BirthInvKept(st, st', NoWrite);
    PointerInvKept(st, st', NoWrite);
    OverlapInvKept(st, st', NoWrite);
    TickFlows(cfg, st, st');
  }

  lemma NextInv(cfg: Config, st: State, e: Event)
    requires cfg.Valid() && Inv(cfg, st) && Enabled(st, e)
    ensures Inv(cfg, Next(cfg, st, e))
  {
    if e.Tick? {
      TickInv(cfg, st, e.ms);
    } else {
      InvReady(cfg, st, e);
      EffectSound(cfg, st, e);
      if EffectOf(cfg, st, e).move.Continue? {
        if e.Read? { ReadFlowInv(cfg, st, e.f); } else { MovedFlowInv(cfg, st, e); }
      }
      ApplyInv(cfg, st, e.f, EffectOf(cfg, st, e), LoginsAfter(st, e));
    }
  }

  lemma RestWithout(evs: seq<Event>, e: Event)
    requires evs != [] && e !in evs
    ensures evs[0] != e && e !in evs[1..]
  {
  }

  // ---- Whole runs -----------------------------------------------------------

  lemma GrowsTransitive(a: State, b: State, c: State)
    requires Grows(a, b) && Grows(b, c)
    ensures Grows(a, c)
  {
    forall i | i in a.rows
      ensures i in c.rows && Ages(a.rows[i], c.rows[i])
    {
      assert Ages(a.rows[i], b.rows[i]) && Ages(b.rows[i], c.rows[i]);
    }
  }

  /** Every run from a good state ends in a good state and undoes nothing. */
  lemma {:induction false} RunInv(cfg: Config, st: State, evs: seq<Event>)
    requires cfg.Valid() && Inv(cfg, st) && Valid(cfg, st, evs)
    ensures Inv(cfg, Run(cfg, st, evs)) && Grows(st, Run(cfg, st, evs))
    decreases |evs|
  {
    if evs == [] {
    } else {
      var st' := Next(cfg, st, evs[0]);
      NextInv(cfg, st, evs[0]);
      NextGrows(cfg, st, evs[0]);
      RunInv(cfg, st', evs[1..]);
      GrowsTransitive(st, st', Run(cfg, st', evs[1..]));
    }
  }
}
