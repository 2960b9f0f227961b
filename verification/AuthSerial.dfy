/**
 Serial execution: every request runs to completion before the next starts, and the
 database may fail any of them.

 `Serve` gives the meaning of one request on the stored state; AuthUsecase's
 methods are specified by it and the step machine, scheduled without overlap,
 computes it (`AuthLink.MachineServes`).
 */
module AuthSerial {
  import opened Prelude
  import opened Tokens
  import opened RefreshTokens
  import opened AuthSteps

  /** The table and what the server has signed so far. */
  datatype Store = Store(now: nat, rows: Table, minted: map<Uuid, RefreshJwt>, accessSigned: set<AccessJwt>)

  datatype Body =
    | LogIn(user: User, jti: Uuid)
    | Refresh(token: Token, jti: Uuid)
    | LogOut(token: Token)

  /** The database statement of a request that fails, should it be reached. */
  datatype Fault = NoFault | ReadFault | WriteFault

  /** A request arriving `wait` milliseconds after the previous one finished. */
  datatype Request = Request(wait: nat, body: Body, fault: Fault)

  datatype Reply = Reply(store: Store, outcome: Outcome)

  predicate Accepts(s: Store, token: Token) {
    VerifiesRefresh(s.minted, s.now, token)
  }

  function IssuedAccess(cfg: Config, s: Store, claims: Claims): AccessJwt {
    AccessToken(claims, ExpOf(s.now, cfg.accessSpan))
  }

  function IssuedRefresh(cfg: Config, s: Store, claims: Claims, jti: Uuid): RefreshJwt {
    RefreshToken(claims, jti, ExpOf(s.now, cfg.refreshSpan))
  }

  /**
   Signs both tokens and stores the refresh token's row, replacing `from` if given. If
   the write fails the tokens are signed all the same, but stored nowhere and handed
   to nobody.
   */
  function Issue(cfg: Config, s: Store, claims: Claims, jti: Uuid, from: Option<Uuid>, fault: Fault): Reply {
    var access := IssuedAccess(cfg, s, claims);
    var refresh := IssuedRefresh(cfg, s, claims, jti);
    var row := RowFor(refresh, s.now, cfg.rowLifetime);
    Reply(
      Store(
        s.now,
        if fault.WriteFault? then s.rows
        else if from.Some? then Rotated(s.rows, row, from.value, s.now)
        else Inserted(s.rows, row),
        s.minted[jti := refresh],
        s.accessSigned + {access}),
      if fault.WriteFault? then DatabaseFailure else Granted(access, refresh))
  }

  /** Revokes all of the user's rows before the request is refused. */
  function Refuse(s: Store, user: Uuid, outcome: Outcome, fault: Fault): Reply {
    if fault.WriteFault? then Reply(s, DatabaseFailure)
    else Reply(s.(rows := AllRevoked(s.rows, user, s.now)), outcome)
  }

  function Serve(cfg: Config, before: Store, req: Request): Reply {
    Answer(cfg, before.(now := before.now + req.wait), req.body, req.fault)
  }

  /** One request served at the store's own time. A failing write is swallowed by logout only. */
  function Answer(cfg: Config, s: Store, body: Body, fault: Fault): Reply {
    match body
    case LogIn(user, jti) => Issue(cfg, s, ClaimsOf(user), jti, None, fault)
    case Refresh(token, jti) =>
      if !Accepts(s, token) then Reply(s, TokenRejected)
      else if fault.ReadFault? then Reply(s, DatabaseFailure)
      else if token.jti !in s.rows then Reply(s, NoRecord)
      else if !s.rows[token.jti].Active() then Refuse(s, s.rows[token.jti].userId, AlreadyUsed, fault)
      else if s.rows[token.jti].tokenHash != Sha256(token) then
        Refuse(s, s.rows[token.jti].userId, HashMismatch, fault)
      else Issue(cfg, s, token.claims, jti, Some(s.rows[token.jti].id), fault)
    case LogOut(token) =>
      var revokes := Accepts(s, token) && !fault.WriteFault?;
      Reply(if revokes then s.(rows := Revoked(s.rows, token.jti, s.now)) else s, LoggedOut)
  }

  /** `randomUUID` draws an identifier never drawn before. */
  predicate Draws(s: Store, req: Request) {
    !req.body.LogOut? ==> req.body.jti !in s.minted
  }

  ghost predicate Served(cfg: Config, s: Store, reqs: seq<Request>)
    decreases |reqs|
  {
    reqs == [] || (Draws(s, reqs[0]) && Served(cfg, Serve(cfg, s, reqs[0]).store, reqs[1..]))
  }

  ghost function ServeAll(cfg: Config, s: Store, reqs: seq<Request>): Store
    requires Served(cfg, s, reqs)
    decreases |reqs|
  {
    if reqs == [] then s else ServeAll(cfg, Serve(cfg, s, reqs[0]).store, reqs[1..])
  }

  const EMPTY := Store(0, map[], map[], {})

  // ---- Stored rows mirror signed tokens ---------------------------------------

  /** Every stored row is that of the token signed under its id. Tokens of failed writes have none. */
  ghost predicate Mirrors(s: Store) {
    && s.rows.Keys <= s.minted.Keys
    && forall i | i in s.rows :: i in s.minted
         && s.minted[i].jti == i && s.rows[i].id == i
         && s.rows[i].userId == s.minted[i].claims.sub
         && s.rows[i].tenantId == s.minted[i].claims.tenantId
         && s.rows[i].tokenHash == Sha256(s.minted[i])
  }

  lemma IssueMirrors(cfg: Config, s: Store, claims: Claims, jti: Uuid, from: Option<Uuid>, fault: Fault)
    requires Mirrors(s) && jti !in s.minted && (from.Some? ==> from.value in s.rows)
    ensures Mirrors(Issue(cfg, s, claims, jti, from, fault).store)
  {
  }

  lemma StampMirrors(s: Store, rows: Table)
    requires Mirrors(s) && rows.Keys == s.rows.Keys
    requires forall i | i in rows :: rows[i].(revokedAt := None) == s.rows[i].(revokedAt := None)
    ensures Mirrors(s.(rows := rows))
  {
    forall i | i in rows
      ensures rows[i].id == i && rows[i].userId == s.minted[i].claims.sub
      ensures rows[i].tenantId == s.minted[i].claims.tenantId && rows[i].tokenHash == Sha256(s.minted[i])
    {
      var row := rows[i].(revokedAt := None);
      assert row == s.rows[i].(revokedAt := None);
    }
  }

  lemma RefreshMirrors(cfg: Config, s: Store, token: Token, jti: Uuid, fault: Fault)
    requires Mirrors(s) && jti !in s.minted
    ensures var reply := Answer(cfg, s, Refresh(token, jti), fault);
      Mirrors(reply.store) && reply.outcome != HashMismatch
  {
    if Accepts(s, token) && token.jti in s.rows {
      if s.rows[token.jti].Active() {
        IssueMirrors(cfg, s, token.claims, jti, Some(token.jti), fault);
      } else {
        StampMirrors(s, AllRevoked(s.rows, s.rows[token.jti].userId, s.now));
      }
    }
  }

  lemma LogOutMirrors(cfg: Config, s: Store, token: Token, fault: Fault)
    requires Mirrors(s)
    ensures Mirrors(Answer(cfg, s, LogOut(token), fault).store)
  {
    if Accepts(s, token) { StampMirrors(s, Revoked(s.rows, token.jti, s.now)); }
  }

  lemma AnswerMirrors(cfg: Config, s: Store, body: Body, fault: Fault)
    requires Mirrors(s) && Draws(s, Request(0, body, fault))
    ensures var Reply(store, outcome) := Answer(cfg, s, body, fault);
      Mirrors(store) && outcome != HashMismatch
  {
    match body
    case LogIn(user, jti) => IssueMirrors(cfg, s, ClaimsOf(user), jti, None, fault);
    case Refresh(token, jti) => RefreshMirrors(cfg, s, token, jti, fault);
    case LogOut(token) => LogOutMirrors(cfg, s, token, fault);
  }

  lemma LaterMirrors(s: Store, wait: nat)
    requires Mirrors(s)
    ensures Mirrors(s.(now := s.now + wait))
  {
  }

  lemma ServeMirrors(cfg: Config, s: Store, req: Request)
    requires Mirrors(s) && Draws(s, req)
    ensures Mirrors(Serve(cfg, s, req).store)
    ensures Serve(cfg, s, req).outcome != HashMismatch
  {
    var later := s.(now := s.now + req.wait);
    LaterMirrors(s, req.wait);
    AnswerMirrors(cfg, later, req.body, req.fault);
    assert Serve(cfg, s, req) == Answer(cfg, later, req.body, req.fault);
  }

  // ---- Chains -------------------------------------------------------------------

  type Chain = seq<Uuid>

  /**
   A non-empty path along replacement pointers: every row but the last is revoked and points at the
   next, the last points nowhere.
   */
  ghost predicate IsChain(rows: Table, c: Chain) {
    && c != []
    && (forall k | 0 <= k < |c| :: c[k] in rows)
    && (forall k | 0 <= k < |c| - 1 :: !rows[c[k]].Active() && rows[c[k]].replacedBy == Some(c[k + 1]))
    && rows[c[|c| - 1]].replacedBy.None?
    && (forall k | 0 <= k < |c| :: rows[c[k]].userId == rows[c[0]].userId && rows[c[k]].tenantId == rows[c[0]].tenantId)
  }

  /** Chain number and position of a row. */
  datatype Place = Place(chain: nat, index: nat)

  ghost predicate PlacedAt(chains: seq<Chain>, p: Place, i: Uuid) {
    p.chain < |chains| && p.index < |chains[p.chain]| && chains[p.chain][p.index] == i
  }

  /**
   The chains are simple, disjoint and cover the table: every row has one place,
   and every place holds a row that calls it its own.
   */
  ghost predicate Partition(rows: Table, chains: seq<Chain>, place: map<Uuid, Place>) {
    && place.Keys == rows.Keys
    && (forall i | i in place :: PlacedAt(chains, place[i], i))
    && (forall a | 0 <= a < |chains| :: IsChain(rows, chains[a]) && OwnPlaces(chains[a], a, place))
  }

  ghost predicate OwnPlaces(c: Chain, a: nat, place: map<Uuid, Place>) {
    forall k | 0 <= k < |c| :: c[k] in place && place[c[k]] == Place(a, k)
  }

  /** Inserting an unrelated row leaves a chain as it is. */
  lemma ChainBesideInsert(rows: Table, c: Chain, row: Row)
    requires IsChain(rows, c) && row.id !in rows
    ensures IsChain(Inserted(rows, row), c)
  {
  }

  lemma SingleRowChain(rows: Table, row: Row)
    requires row.replacedBy.None?
    ensures IsChain(Inserted(rows, row), [row.id])
  {
  }

  lemma PlacesBesideNew(chains: seq<Chain>, place: map<Uuid, Place>, id: Uuid, i: Uuid)
    requires id !in place && i in place && PlacedAt(chains, place[i], i)
    ensures PlacedAt(chains + [[id]], place[i], i)
  {
  }

  lemma OwnPlacesBesideNew(c: Chain, a: nat, place: map<Uuid, Place>, id: Uuid, at: Place)
    requires OwnPlaces(c, a, place) && id !in place
    ensures OwnPlaces(c, a, place[id := at])
  {
  }

  lemma NewChain(rows: Table, chains: seq<Chain>, place: map<Uuid, Place>, row: Row)
    requires Partition(rows, chains, place) && row.id !in rows && row.replacedBy.None?
    ensures Partition(Inserted(rows, row), chains + [[row.id]], place[row.id := Place(|chains|, 0)])
  {
    var rows', chains', place' := Inserted(rows, row), chains + [[row.id]], place[row.id := Place(|chains|, 0)];
    forall a | 0 <= a < |chains'|
      ensures IsChain(rows', chains'[a]) && OwnPlaces(chains'[a], a, place')
    {
      if a < |chains| {
        assert IsChain(rows, chains[a]) && OwnPlaces(chains[a], a, place);
        ChainBesideInsert(rows, chains[a], row);
        OwnPlacesBesideNew(chains[a], a, place, row.id, Place(|chains|, 0));
      } else {
        SingleRowChain(rows, row);
      }
    }
    forall i | i in place'
      ensures PlacedAt(chains', place'[i], i)
    {
      if i in place { PlacesBesideNew(chains, place, row.id, i); }
    }
  }

  /** An active row is the tail of its chain. */
  lemma ActiveIsTail(rows: Table, chains: seq<Chain>, place: map<Uuid, Place>, i: Uuid)
    requires Partition(rows, chains, place) && i in rows && rows[i].Active()
    ensures place[i].chain < |chains| && place[i].index == |chains[place[i].chain]| - 1
    ensures chains[place[i].chain][place[i].index] == i
  {
    assert PlacedAt(chains, place[i], i);
    assert IsChain(rows, chains[place[i].chain]);
  }

  /** The chain that grows: its old tail is now revoked and points at the new one. */
  lemma GrownChain(rows: Table, c: Chain, row: Row, at: nat)
    requires IsChain(rows, c) && row.id !in rows && row.replacedBy.None?
    requires row.userId == rows[c[0]].userId && row.tenantId == rows[c[0]].tenantId
    requires forall k | 0 <= k < |c| - 1 :: c[k] != c[|c| - 1]
    ensures IsChain(Rotated(rows, row, c[|c| - 1], at), c + [row.id])
  {
    var rows', c' := Rotated(rows, row, c[|c| - 1], at), c + [row.id];
    forall k | 0 <= k < |c'|
      ensures c'[k] in rows' && rows'[c'[k]].userId == rows'[c'[0]].userId
          && rows'[c'[k]].tenantId == rows'[c'[0]].tenantId
    {
      if k < |c| { assert c'[k] == c[k]; }
    }
  }

  lemma OtherChain(rows: Table, c: Chain, row: Row, i: Uuid, at: nat)
    requires IsChain(rows, c) && row.id !in rows && i !in c
    ensures IsChain(Rotated(rows, row, i, at), c)
  {
    assert forall k | 0 <= k < |c| :: c[k] in c;
  }

  /** Every row keeps its place when chain `a` grows by `id`. */
  lemma PlacesGrow(chains: seq<Chain>, place: map<Uuid, Place>, a: nat, id: Uuid, i: Uuid)
    requires a < |chains| && id !in place && i in place && PlacedAt(chains, place[i], i)
    ensures PlacedAt(chains[a := chains[a] + [id]], place[i], i)
  {
  }

  lemma OwnPlacesGrow(chains: seq<Chain>, place: map<Uuid, Place>, a: nat, id: Uuid, b: nat)
    requires a < |chains| && b < |chains| && id !in place && OwnPlaces(chains[b], b, place)
    ensures OwnPlaces(chains[a := chains[a] + [id]][b], b, place[id := Place(a, |chains[a]|)])
  {
  }

  lemma LongerChain(rows: Table, chains: seq<Chain>, place: map<Uuid, Place>, row: Row, i: Uuid, at: nat)
    requires Partition(rows, chains, place) && row.id !in rows && row.replacedBy.None?
    requires i in rows && rows[i].Active() && row.userId == rows[i].userId && row.tenantId == rows[i].tenantId
    ensures var a := place[i].chain;
      && a < |chains|
      && Partition(Rotated(rows, row, i, at), chains[a := chains[a] + [row.id]], place[row.id := Place(a, |chains[a]|)])
  {
    ActiveIsTail(rows, chains, place, i);
    var a := place[i].chain;
    var c := chains[a];
    var rows', chains', place' := Rotated(rows, row, i, at), chains[a := c + [row.id]], place[row.id := Place(a, |c|)];
    forall b | 0 <= b < |chains'|
      ensures IsChain(rows', chains'[b]) && OwnPlaces(chains'[b], b, place')
    {
      assert IsChain(rows, chains[b]) && OwnPlaces(chains[b], b, place);
      OwnPlacesGrow(chains, place, a, row.id, b);
      if b == a { GrownChain(rows, c, row, at); } else { OtherChain(rows, chains[b], row, i, at); }
    }
    forall j | j in place'
      ensures PlacedAt(chains', place'[j], j)
    {
      if j in place { PlacesGrow(chains, place, a, row.id, j); }
    }
  }

  /** Setting revocation times only leaves the chains as they are. */
  lemma RevokingKeepsChains(rows: Table, rows': Table, chains: seq<Chain>, place: map<Uuid, Place>)
    requires Partition(rows, chains, place) && rows'.Keys == rows.Keys
    requires forall i | i in rows :: OnlyStamped(rows[i], rows'[i])
    ensures Partition(rows', chains, place)
  {
    forall a | 0 <= a < |chains|
      ensures IsChain(rows', chains[a]) && OwnPlaces(chains[a], a, place)
    {
      assert IsChain(rows, chains[a]) && OwnPlaces(chains[a], a, place);
      assert forall k | 0 <= k < |chains[a]| :: OnlyStamped(rows[chains[a][k]], rows'[chains[a][k]]);
    }
  }

  ghost predicate OnlyStamped(row: Row, row': Row) {
    && row'.userId == row.userId && row'.tenantId == row.tenantId && row'.replacedBy == row.replacedBy
    && (!row.Active() ==> !row'.Active())
  }

  /** The row a request stored if it was a granted login. */
  function LoginRow(req: Request, outcome: Outcome): seq<Uuid> {
    if req.body.LogIn? && outcome.Granted? then [req.body.jti] else []
  }

  /** The logins that were granted, in order, each by the row it stored. */
  ghost function GrantedLogins(cfg: Config, s: Store, reqs: seq<Request>): seq<Uuid>
    decreases |reqs|
  {
    if reqs == [] then []
    else
      var Reply(store, outcome) := Serve(cfg, s, reqs[0]);
      LoginRow(reqs[0], outcome) + GrantedLogins(cfg, store, reqs[1..])
  }

  /** Chain by chain, `heads` are the rows the chains start with. */
  ghost predicate Headed(chains: seq<Chain>, heads: seq<Uuid>) {
    && |chains| == |heads|
    && forall a | 0 <= a < |chains| :: chains[a] != [] && chains[a][0] == heads[a]
  }

  /** What one request does to the table. */
  datatype Change = Added(row: Row) | Swapped(row: Row, from: Uuid, at: nat) | Stamped

  ghost predicate Makes(rows: Table, rows': Table, ch: Change) {
    match ch
    case Added(row) =>
      row.id !in rows && row.replacedBy.None? && rows' == Inserted(rows, row)
    case Swapped(row, from, at) =>
      && row.id !in rows && row.replacedBy.None?
      && from in rows && rows[from].Active() && row.userId == rows[from].userId && row.tenantId == rows[from].tenantId
      && rows' == Rotated(rows, row, from, at)
    case Stamped => rows'.Keys == rows.Keys && forall i | i in rows :: OnlyStamped(rows[i], rows'[i])
  }

  lemma ServeChange(cfg: Config, before: Store, req: Request) returns (ch: Change)
    requires Mirrors(before) && Draws(before, req)
    ensures Makes(before.rows, Serve(cfg, before, req).store.rows, ch)
    ensures ch.Added? <==> req.body.LogIn? && Serve(cfg, before, req).outcome.Granted?
    ensures ch.Added? ==> ch.row.id == req.body.jti
  {
    var s := before.(now := before.now + req.wait);
    ch := Stamped;
    match req.body
    case LogIn(user, jti) =>
      if !req.fault.WriteFault? {
        ch := Added(RowFor(IssuedRefresh(cfg, s, ClaimsOf(user), jti), s.now, cfg.rowLifetime));
      }
    case Refresh(token, jti) =>
      if Accepts(s, token) && token.jti in s.rows && s.rows[token.jti].Active() && req.fault.NoFault? {
        ch := Swapped(RowFor(IssuedRefresh(cfg, s, token.claims, jti), s.now, cfg.rowLifetime), token.jti, s.now);
      }
    case LogOut(_) =>
  }

  lemma ChangeChains(rows: Table, rows': Table, ch: Change, chains: seq<Chain>, place: map<Uuid, Place>,
      heads: seq<Uuid>)
    returns (chains': seq<Chain>, place': map<Uuid, Place>)
    requires Makes(rows, rows', ch) && Partition(rows, chains, place) && Headed(chains, heads)
    ensures Partition(rows', chains', place')
    ensures Headed(chains', heads + (if ch.Added? then [ch.row.id] else []))
  {
    match ch
    case Added(row) =>
      NewChain(rows, chains, place, row);
      chains', place' := chains + [[row.id]], place[row.id := Place(|chains|, 0)];
    case Swapped(row, from, at) =>
      LongerChain(rows, chains, place, row, from, at);
      var a := place[from].chain;
      chains', place' := chains[a := chains[a] + [row.id]], place[row.id := Place(a, |chains[a]|)];
    case Stamped =>
      RevokingKeepsChains(rows, rows', chains, place);
      chains', place' := chains, place;
  }

  lemma ServeChains(cfg: Config, s: Store, req: Request, chains: seq<Chain>, place: map<Uuid, Place>, heads: seq<Uuid>)
    returns (chains': seq<Chain>, place': map<Uuid, Place>, heads': seq<Uuid>)
    requires Mirrors(s) && Draws(s, req) && Partition(s.rows, chains, place) && Headed(chains, heads)
    ensures Mirrors(Serve(cfg, s, req).store) && Partition(Serve(cfg, s, req).store.rows, chains', place')
    ensures Headed(chains', heads') && heads' == heads + LoginRow(req, Serve(cfg, s, req).outcome)
  {
    ServeMirrors(cfg, s, req);
    var ch := ServeChange(cfg, s, req);
    heads' := heads + LoginRow(req, Serve(cfg, s, req).outcome);
    chains', place' := ChangeChains(s.rows, Serve(cfg, s, req).store.rows, ch, chains, place, heads);
  }

  lemma GrantedLoginsStep(cfg: Config, s: Store, reqs: seq<Request>, heads: seq<Uuid>)
    requires reqs != []
    ensures heads + GrantedLogins(cfg, s, reqs)
         == heads + LoginRow(reqs[0], Serve(cfg, s, reqs[0]).outcome)
            + GrantedLogins(cfg, Serve(cfg, s, reqs[0]).store, reqs[1..])
  {
  }

  /**
   Every store serial execution can reach is a set of disjoint simple chains, one for
   each granted login and headed by the row that login stored: each row has at most
   one successor, every row with a successor is revoked, and only a chain's tail can
   be active.
   */
  lemma {:induction false} SerialChains(cfg: Config, s: Store, reqs: seq<Request>,
                                        chains: seq<Chain>, place: map<Uuid, Place>, heads: seq<Uuid>)
    returns (chains': seq<Chain>, place': map<Uuid, Place>)
    requires Mirrors(s) && Served(cfg, s, reqs) && Partition(s.rows, chains, place) && Headed(chains, heads)
    ensures Mirrors(ServeAll(cfg, s, reqs))
    ensures Partition(ServeAll(cfg, s, reqs).rows, chains', place')
    ensures Headed(chains', heads + GrantedLogins(cfg, s, reqs))
    decreases |reqs|
  {
    if reqs == [] {
      chains', place' := chains, place;
      assert heads + [] == heads;
    } else {
      var next, at, more := ServeChains(cfg, s, reqs[0], chains, place, heads);
      chains', place' := SerialChains(cfg, Serve(cfg, s, reqs[0]).store, reqs[1..], next, at, more);
      GrantedLoginsStep(cfg, s, reqs, heads);
    }
  }

  /** From the empty table: exactly one chain for each granted login, in order. */
  lemma SerialChainsFromEmpty(cfg: Config, reqs: seq<Request>) returns (chains: seq<Chain>, place: map<Uuid, Place>)
    requires Served(cfg, EMPTY, reqs)
    ensures Partition(ServeAll(cfg, EMPTY, reqs).rows, chains, place)
    ensures Headed(chains, GrantedLogins(cfg, EMPTY, reqs))
  {
    chains, place := SerialChains(cfg, EMPTY, reqs, [], map[], []);
    assert [] + GrantedLogins(cfg, EMPTY, reqs) == GrantedLogins(cfg, EMPTY, reqs);
  }

  /** What a partition says: chains never meet, and a row has one predecessor at most. */
  lemma PartitionMeaning(rows: Table, chains: seq<Chain>, place: map<Uuid, Place>, i: Uuid, j: Uuid)
    requires Partition(rows, chains, place) && i in rows && j in rows
    ensures rows[i].replacedBy.Some? ==> rows[i].replacedBy.value in rows && !rows[i].Active()
    ensures rows[i].replacedBy.Some? && rows[i].replacedBy == rows[j].replacedBy ==> i == j
    ensures rows[i].Active() && rows[j].Active() && place[i].chain == place[j].chain ==> i == j
  {
    var a, b := place[i], place[j];
    assert PlacedAt(chains, a, i) && PlacedAt(chains, b, j);
    assert IsChain(rows, chains[a.chain]) && OwnPlaces(chains[a.chain], a.chain, place);
    assert IsChain(rows, chains[b.chain]) && OwnPlaces(chains[b.chain], b.chain, place);
    if rows[i].replacedBy.Some? {
      assert a.index < |chains[a.chain]| - 1;
      assert rows[i].replacedBy == Some(chains[a.chain][a.index + 1]);
      if rows[i].replacedBy == rows[j].replacedBy {
        assert b.index < |chains[b.chain]| - 1;
        assert place[chains[a.chain][a.index + 1]] == Place(a.chain, a.index + 1);
        assert place[chains[b.chain][b.index + 1]] == Place(b.chain, b.index + 1);
      }
    }
  }

  // ---- Active rows and logins -----------------------------------------------------

  /**
   Granted logins of `user` since the last request that revoked all of the user's rows, `n` being
   the count so far.
   */
  ghost function LoginsSinceKill(cfg: Config, s: Store, reqs: seq<Request>, user: Uuid, n: nat): nat
    decreases |reqs|
  {
    if reqs == [] then n
    else
      var Reply(store, outcome) := Serve(cfg, s, reqs[0]);
      var n' :=
        if reqs[0].body.LogIn? && outcome.Granted? && reqs[0].body.user.id == user then n + 1
        else if outcome == AlreadyUsed && reqs[0].body.token.claims.sub == user then 0
        else n;
      LoginsSinceKill(cfg, store, reqs[1..], user, n')
  }

  lemma ServeActiveRows(cfg: Config, s: Store, req: Request, user: Uuid)
    requires Mirrors(s) && Draws(s, req)
    ensures var Reply(store, outcome) := Serve(cfg, s, req);
      var before, after := ActiveRows(s.rows, user), ActiveRows(store.rows, user);
      if req.body.LogIn? && outcome.Granted? && req.body.user.id == user then after == before + {req.body.jti}
      else if outcome == AlreadyUsed && req.body.token.claims.sub == user then after == {}
      else after <= before
           || (outcome.Granted? && req.body.Refresh? && req.body.token.jti in before
               && after == before - {req.body.token.jti} + {req.body.jti})
  {
  }

  /** Rotation keeps the number of active rows, so it never exceeds the logins since the last revoke-all. */
  lemma {:induction false} ActiveBoundedByLogins(cfg: Config, s: Store, reqs: seq<Request>, user: Uuid, n: nat)
    requires Mirrors(s) && Served(cfg, s, reqs) && |ActiveRows(s.rows, user)| <= n
    ensures |ActiveRows(ServeAll(cfg, s, reqs).rows, user)| <= LoginsSinceKill(cfg, s, reqs, user, n)
    decreases |reqs|
  {
    if reqs == [] {
    } else {
      var req := reqs[0];
      var Reply(store, outcome) := Serve(cfg, s, req);
      var before, after := ActiveRows(s.rows, user), ActiveRows(store.rows, user);
      ServeMirrors(cfg, s, req);
      ServeActiveRows(cfg, s, req, user);
      var n' :=
        if req.body.LogIn? && outcome.Granted? && req.body.user.id == user then n + 1
        else if outcome == AlreadyUsed && req.body.token.claims.sub == user then 0
        else n;
      if after <= before { SubsetSize(after, before); }
      ActiveBoundedByLogins(cfg, store, reqs[1..], user, n');
    }
  }

  lemma SubsetSize(a: set<Uuid>, b: set<Uuid>)
    requires a <= b
    ensures |a| <= |b|
  {
    assert b == a + (b - a);
  }

  // ---- Family kill ------------------------------------------------------------------

  ghost predicate Killed(s: Store, dead: set<Uuid>) {
    forall i | i in dead :: i in s.rows && !s.rows[i].Active()
  }

  lemma KilledStays(cfg: Config, s: Store, req: Request, dead: set<Uuid>)
    requires Mirrors(s) && Draws(s, req) && Killed(s, dead)
    ensures Killed(Serve(cfg, s, req).store, dead)
  {
  }

  lemma {:induction false} KilledForever(cfg: Config, s: Store, reqs: seq<Request>, dead: set<Uuid>)
    requires Mirrors(s) && Served(cfg, s, reqs) && Killed(s, dead)
    ensures Mirrors(ServeAll(cfg, s, reqs)) && Killed(ServeAll(cfg, s, reqs), dead)
    decreases |reqs|
  {
    if reqs == [] {
    } else {
      ServeMirrors(cfg, s, reqs[0]);
      KilledStays(cfg, s, reqs[0], dead);
      KilledForever(cfg, Serve(cfg, s, reqs[0]).store, reqs[1..], dead);
    }
  }

  /** A token whose row was never stored, its write having failed. */
  ghost predicate Unstored(s: Store, jti: Uuid) {
    jti in s.minted && jti !in s.rows
  }

  lemma UnstoredStays(cfg: Config, s: Store, req: Request, jti: Uuid)
    requires Draws(s, req) && Unstored(s, jti)
    requires forall i | i in s.rows :: s.rows[i].id == i
    ensures Unstored(Serve(cfg, s, req).store, jti)
  {
  }

  /** What was never stored never will be: identifiers are drawn once. */
  lemma {:induction false} UnstoredForever(cfg: Config, s: Store, reqs: seq<Request>, jti: Uuid)
    requires Mirrors(s) && Served(cfg, s, reqs) && Unstored(s, jti)
    ensures Unstored(ServeAll(cfg, s, reqs), jti)
    decreases |reqs|
  {
    if reqs == [] {
    } else {
      ServeMirrors(cfg, s, reqs[0]);
      UnstoredStays(cfg, s, reqs[0], jti);
      UnstoredForever(cfg, Serve(cfg, s, reqs[0]).store, reqs[1..], jti);
    }
  }

  /** A granted refresh token is stored for good, so only a token of a failed write can lack its record. */
  lemma GrantedIsStored(cfg: Config, s: Store, req: Request)
    requires Mirrors(s) && Draws(s, req)
    ensures var Reply(store, outcome) := Serve(cfg, s, req);
      && (outcome.Granted? ==>
            && outcome.refresh.jti in store.rows
            && store.minted[outcome.refresh.jti] == outcome.refresh)
      && s.rows.Keys <= store.rows.Keys
      && (outcome == NoRecord ==> Unstored(s, req.body.token.jti))
  {
  }

  /**
   After any replay of a revoked token, no token of that user signed up to that
   point is ever accepted by `refresh` again, whatever is served in between and
   whatever fails.
   */
  lemma FamilyKill(cfg: Config, s: Store, replay: Request, reqs: seq<Request>, token: RefreshJwt, again: Request)
    requires Mirrors(s) && Draws(s, replay) && replay.body.Refresh?
    requires Serve(cfg, s, replay).outcome == AlreadyUsed
    requires token.jti in s.minted && token.claims.sub == replay.body.token.claims.sub
    requires Served(cfg, Serve(cfg, s, replay).store, reqs)
    requires again.body.Refresh? && again.body.token == token
    ensures !Serve(cfg, ServeAll(cfg, Serve(cfg, s, replay).store, reqs), again).outcome.Granted?
  {
    var killed := Serve(cfg, s, replay).store;
    ServeMirrors(cfg, s, replay);
    var user := token.claims.sub;
    var dead := set i | i in s.rows && s.rows[i].userId == user;
    assert Killed(killed, dead);
    KilledForever(cfg, killed, reqs, dead);
    var end := ServeAll(cfg, killed, reqs);
    SignaturesKept(cfg, killed, reqs, token.jti);
    if token.jti in dead {
      assert !end.rows[token.jti].Active();
    } else if token.jti !in s.rows {
      UnstoredForever(cfg, killed, reqs, token.jti);
    }
  }

  lemma {:induction false} SignaturesKept(cfg: Config, s: Store, reqs: seq<Request>, jti: Uuid)
    requires Served(cfg, s, reqs) && jti in s.minted
    ensures jti in ServeAll(cfg, s, reqs).minted && ServeAll(cfg, s, reqs).minted[jti] == s.minted[jti]
    decreases |reqs|
  {
    if reqs == [] {
    } else {
      SignaturesKept(cfg, Serve(cfg, s, reqs[0]).store, reqs[1..], jti);
    }
  }

  /** Only a new login makes an active row: without one, the user stays without any. */
  lemma {:induction false} OnlyLoginRevives(cfg: Config, s: Store, reqs: seq<Request>, user: Uuid)
    requires Mirrors(s) && Served(cfg, s, reqs) && NoneActive(s.rows, user)
    requires forall k | 0 <= k < |reqs| && reqs[k].body.LogIn? :: reqs[k].body.user.id != user
    ensures NoneActive(ServeAll(cfg, s, reqs).rows, user)
    decreases |reqs|
  {
    if reqs == [] {
    } else {
      ServeMirrors(cfg, s, reqs[0]);
      ServeActiveRows(cfg, s, reqs[0], user);
      var next := Serve(cfg, s, reqs[0]).store;
      assert ActiveRows(s.rows, user) == {};
      assert forall i | i in next.rows && next.rows[i].userId == user && next.rows[i].Active() ::
            i in ActiveRows(next.rows, user);
      OnlyLoginRevives(cfg, next, reqs[1..], user);
    }
  }
}
