/**
 The `refresh_tokens` table: its rows, the five statements the repository
 issues as functions on the table, and the repository itself, whose methods
 update the table in place and are specified by those functions.
 */
module RefreshTokens {
  import opened Prelude
  import opened Tokens

  datatype Row = Row(
    id: Uuid,
    userId: Uuid,
    tenantId: Uuid,
    tokenHash: Digest,
    expiresAt: int,
    revokedAt: Option<nat>,
    replacedBy: Option<Uuid>)
  {
    predicate Active() { revokedAt.None? }
  }

  type Table = map<Uuid, Row>

  /** The row built for a freshly signed refresh token. */
  function RowFor(token: RefreshJwt, now: nat, lifetime: nat): Row
  {
    Row(token.jti, token.claims.sub, token.claims.tenantId, Sha256(token), now + lifetime, None, None)
  }

  function Inserted(rows: Table, row: Row): Table {
    rows[row.id := row]
  }

  /** UPDATE ... SET revoked_at, replaced_by_token_id WHERE id = from; no row, no effect. */
  function Replaced(rows: Table, from: Uuid, successor: Uuid, at: nat): Table {
    if from in rows then rows[from := rows[from].(revokedAt := Some(at), replacedBy := Some(successor))] else rows
  }

  /** UPDATE ... SET revoked_at WHERE id = id, keyed by id only: an earlier revocation time is overwritten. */
  function Revoked(rows: Table, id: Uuid, at: nat): Table {
    if id in rows then rows[id := rows[id].(revokedAt := Some(at))] else rows
  }

  /** The rows an UPDATE ... WHERE user_id = user AND revoked_at IS NULL finds. */
  function ActiveRows(rows: Table, user: Uuid): set<Uuid> {
    set i | i in rows && rows[i].userId == user && rows[i].Active()
  }

  ghost predicate NoneActive(rows: Table, user: Uuid) {
    forall i | i in rows && rows[i].userId == user :: !rows[i].Active()
  }

  /** The rows found earlier are stamped, unless revoked since; rows inserted since are not among them. */
  function Stamped(rows: Table, found: set<Uuid>, at: nat): Table {
    map i | i in rows :: if i in found && rows[i].Active() then rows[i].(revokedAt := Some(at)) else rows[i]
  }

  /** UPDATE ... SET revoked_at WHERE user_id = user AND revoked_at IS NULL, nothing else running. */
  function AllRevoked(rows: Table, user: Uuid, at: nat): Table {
    map i | i in rows ::
      if rows[i].userId == user && rows[i].Active() then rows[i].(revokedAt := Some(at)) else rows[i]
  }

  /** The two writes of a rotation. */
  function Rotated(rows: Table, row: Row, from: Uuid, at: nat): Table {
    Replaced(Inserted(rows, row), from, row.id, at)
  }

  function Lookup(rows: Table, id: Uuid): Option<Row> {
    if id in rows then Some(rows[id]) else None
  }

  // ---- What the statements mean -------------------------------------------------

  predicate ActiveIn(rows: Table, i: Uuid) {
    i in rows && rows[i].Active()
  }

  /** The columns no statement ever changes. */
  predicate SameIdentity(a: Row, b: Row) {
    && a.id == b.id && a.userId == b.userId && a.tenantId == b.tenantId
    && a.tokenHash == b.tokenHash && a.expiresAt == b.expiresAt
  }

  /** Which rows are active after each statement: one more, one swapped, one fewer, or none of the user's. */
  lemma StatementsOnActiveRows(rows: Table, row: Row, from: Uuid, user: Uuid, at: nat)
    requires row.id !in rows && row.Active() && from != row.id
    ensures forall i :: ActiveIn(Inserted(rows, row), i) <==> i == row.id || ActiveIn(rows, i)
    ensures forall i :: ActiveIn(Rotated(rows, row, from, at), i) <==> i == row.id || (i != from && ActiveIn(rows, i))
    ensures forall i :: ActiveIn(Revoked(rows, from, at), i) <==> i != from && ActiveIn(rows, i)
    ensures forall i :: ActiveIn(AllRevoked(rows, user, at), i) <==> ActiveIn(rows, i) && rows[i].userId != user
  {
  }

  /** No statement loses a row or changes whose it is; only a rotation points a row at another, and only its parent. */
  lemma StatementsOnOldRows(rows: Table, row: Row, from: Uuid, user: Uuid, at: nat, i: Uuid)
    requires row.id !in rows && i in rows
    ensures forall after: Table | after in {Inserted(rows, row), Revoked(rows, from, at), AllRevoked(rows, user, at)} ::
      i in after && SameIdentity(after[i], rows[i]) && after[i].replacedBy == rows[i].replacedBy
    ensures var after := Rotated(rows, row, from, at);
      && i in after && SameIdentity(after[i], rows[i])
      && after[i].replacedBy == if i == from then Some(row.id) else rows[i].replacedBy
  {
  }

  /** Revoking all of a user's rows: exactly that user's rows end revoked, and only active ones are stamped. */
  lemma AllRevokedMeaning(rows: Table, user: Uuid, at: nat)
    ensures var after := AllRevoked(rows, user, at);
      && after.Keys == rows.Keys
      && NoneActive(after, user)
      && (forall i | i in rows && !rows[i].Active() :: after[i] == rows[i])
      && (forall i | i in rows && rows[i].userId != user :: after[i] == rows[i])
      && (forall i | i in ActiveRows(rows, user) :: after[i] == rows[i].(revokedAt := Some(at)))
  {
  }

  /** An UPDATE that nothing overtakes finds and stamps all of the user's active rows. */
  lemma StampedAtOnce(rows: Table, user: Uuid, at: nat)
    ensures Stamped(rows, ActiveRows(rows, user), at) == AllRevoked(rows, user, at)
  {
  }

  // ---- The repository -------------------------------------------------------------

  /** Every method takes whether, or where, the database fails; a failure leaves the table as it was. */
  class RefreshTokenRepository {
    var rows: Table

    constructor ()
      ensures rows == map[]
    {
      rows := map[];
    }

    method Create(row: Row, fails: bool) returns (created: Option<Row>)
      requires row.id !in rows
      modifies this
      ensures created.Some? <==> !fails
      ensures fails ==> rows == old(rows)
      ensures !fails ==> rows == Inserted(old(rows), row.(revokedAt := None, replacedBy := None))
      ensures !fails ==> created == Lookup(rows, row.id)
    {
      if fails {
        return None;
      }
      var saved := row.(revokedAt := None, replacedBy := None);
      rows := rows[row.id := saved];
      created := Some(saved);
    }

    method FindById(id: Uuid, fails: bool) returns (ok: bool, found: Option<Row>)
      ensures ok <==> !fails
      ensures ok ==> found == Lookup(rows, id)
    {
      if fails {
        return false, None;
      }
      ok, found := true, if id in rows then Some(rows[id]) else None;
    }

    /**
     Insert and update inside one transaction. `failAt` says which statement
     fails, if any; a failure discards both writes.
     */
    method Rotate(row: Row, rotatedFromId: Uuid, now: nat, failAt: Option<nat>) returns (committed: bool)
      requires row.id !in rows && row.id != rotatedFromId
      modifies this
      ensures committed <==> failAt.None? || failAt.value > 2
      ensures !committed ==> rows == old(rows)
      ensures committed ==>
        rows == Rotated(old(rows), row.(revokedAt := None, replacedBy := None), rotatedFromId, now)
    {
      var savepoint := rows;
      committed := false;
      if failAt == Some(0) { return; }
      rows := rows[row.id := row.(revokedAt := None, replacedBy := None)];
      if failAt == Some(1) { rows := savepoint; return; }
      if rotatedFromId in rows {
        rows := rows[rotatedFromId := rows[rotatedFromId].(revokedAt := Some(now), replacedBy := Some(row.id))];
      }
      if failAt == Some(2) { rows := savepoint; return; }
      committed := true;
    }

    method Revoke(id: Uuid, now: nat, fails: bool) returns (ok: bool)
      modifies this
      ensures ok <==> !fails
      ensures rows == if fails then old(rows) else Revoked(old(rows), id, now)
    {
      if !fails && id in rows {
        rows := rows[id := rows[id].(revokedAt := Some(now))];
      }
      ok := !fails;
    }

    /** One UPDATE over the table, row by row. */
    method RevokeAllForUser(user: Uuid, now: nat, fails: bool) returns (ok: bool)
      modifies this
      ensures ok <==> !fails
      ensures rows == if fails then old(rows) else AllRevoked(old(rows), user, now)
    {
      if fails {
        return false;
      }
      ghost var before := rows;
      var pending := rows.Keys;
      while pending != {}
        invariant pending <= before.Keys == rows.Keys
        invariant forall i | i in pending :: rows[i] == before[i]
        invariant forall i | i in before && i !in pending :: rows[i] == AllRevoked(before, user, now)[i]
        decreases pending
      {
        var i :| i in pending;
        if rows[i].userId == user && rows[i].revokedAt.None? {
          rows := rows[i := rows[i].(revokedAt := Some(now))];
        }
        pending := pending - {i};
      }
      ok := true;
    }
  }
}
