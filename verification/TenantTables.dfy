/**
 The tenant-scoped tables: rows, the row-level-security policy, the unique
 constraint, and what the repositories' statements mean on them.

 `writer` is history: the request that wrote the row.
 */
module TenantTables {
  import opened Prelude

  /** A request, identified together with the tenant whose context it runs in. */
  datatype ReqId = ReqId(tenant: Uuid, number: nat)

  datatype UserRow = UserRow(
    id: Uuid, tenantId: Uuid, email: string, passwordHash: string, role: Role, createdAt: nat, writer: ReqId)

  datatype NoteRow = NoteRow(id: Uuid, tenantId: Uuid, content: string, createdAt: nat, writer: ReqId)

  /** `current_setting('app.current_tenant_id', true)`. */
  type Setting = Option<Uuid>

  /**
   The `tenant_isolation` policy; USING and WITH CHECK are the same expression, and an unset setting
   satisfies neither.
   */
  predicate Policy(tenantId: Uuid, setting: Setting) {
    setting == Some(tenantId)
  }

  /**
   How a database guards its rows: one flat table under the policy, or a private
   database of one owner with no policy at all, whose tables simply hold that
   owner's rows.
   */
  datatype Guard = Rls | Private(owner: Uuid)

  predicate Admits(g: Guard, tenantId: Uuid, setting: Setting) {
    match g
    case Rls => Policy(tenantId, setting)
    case Private(owner) => tenantId == owner
  }

  /** USING: the rows of a user table a statement can see. */
  function UsersUnder(users: seq<UserRow>, setting: Setting): seq<UserRow> {
    if users == [] then []
    else
      var rest, last := UsersUnder(users[..|users| - 1], setting), users[|users| - 1];
      if Policy(last.tenantId, setting) then rest + [last] else rest
  }

  function NotesUnder(notes: seq<NoteRow>, setting: Setting): seq<NoteRow> {
    if notes == [] then []
    else
      var rest, last := NotesUnder(notes[..|notes| - 1], setting), notes[|notes| - 1];
      if Policy(last.tenantId, setting) then rest + [last] else rest
  }

  function VisibleUsers(g: Guard, users: seq<UserRow>, setting: Setting): seq<UserRow> {
    if g.Rls? then UsersUnder(users, setting) else users
  }

  function VisibleNotes(g: Guard, notes: seq<NoteRow>, setting: Setting): seq<NoteRow> {
    if g.Rls? then NotesUnder(notes, setting) else notes
  }

  /** The first row with this email among the given rows. */
  function FirstByEmail(users: seq<UserRow>, email: string): (found: Option<UserRow>)
    ensures found.Some? ==> found.value in users && found.value.email == email
    ensures found.None? ==> forall u | u in users :: u.email != email
  {
    if users == [] then None
    else if users[0].email == email then Some(users[0])
    else FirstByEmail(users[1..], email)
  }

  function FirstById(users: seq<UserRow>, id: Uuid): (found: Option<UserRow>)
    ensures found.Some? ==> found.value in users && found.value.id == id
    ensures found.None? ==> forall u | u in users :: u.id != id
  {
    if users == [] then None
    else if users[0].id == id then Some(users[0])
    else FirstById(users[1..], id)
  }

  /** ORDER BY created_at DESC; equal instants keep table order. */
  function NewestFirst(notes: seq<NoteRow>): seq<NoteRow> {
    if notes == [] then [] else InsertNewest(notes[|notes| - 1], NewestFirst(notes[..|notes| - 1]))
  }

  function InsertNewest(note: NoteRow, sorted: seq<NoteRow>): seq<NoteRow> {
    if sorted == [] || sorted[0].createdAt < note.createdAt then [note] + sorted
    else [sorted[0]] + InsertNewest(note, sorted[1..])
  }

  ghost predicate Descending(notes: seq<NoteRow>) {
    forall j, k | 0 <= j < k < |notes| :: notes[j].createdAt >= notes[k].createdAt
  }

  lemma {:induction false} InsertNewestKeeps(note: NoteRow, sorted: seq<NoteRow>)
    ensures multiset(InsertNewest(note, sorted)) == multiset(sorted) + multiset{note}
  {
    if sorted != [] && sorted[0].createdAt >= note.createdAt {
      InsertNewestKeeps(note, sorted[1..]);
      assert sorted == [sorted[0]] + sorted[1..];
    }
  }

  lemma {:induction false} InsertNewestSorts(note: NoteRow, sorted: seq<NoteRow>)
    requires Descending(sorted)
    ensures Descending(InsertNewest(note, sorted))
    ensures forall k | 0 <= k < |InsertNewest(note, sorted)| ::
      InsertNewest(note, sorted)[k].createdAt <= note.createdAt
      || (sorted != [] && InsertNewest(note, sorted)[k].createdAt <= sorted[0].createdAt)
  {
    if sorted != [] && sorted[0].createdAt >= note.createdAt {
      InsertNewestSorts(note, sorted[1..]);
    }
  }

  /** The listing is the rows themselves, newest first. */
  lemma {:induction false} NewestFirstSorts(notes: seq<NoteRow>)
    ensures Descending(NewestFirst(notes)) && multiset(NewestFirst(notes)) == multiset(notes)
  {
    if notes == [] {
    } else {
      var n := |notes| - 1;
      NewestFirstSorts(notes[..n]);
      InsertNewestSorts(notes[n], NewestFirst(notes[..n]));
      InsertNewestKeeps(notes[n], NewestFirst(notes[..n]));
      assert notes == notes[..n] + [notes[n]];
    }
  }

  /** The policy filter keeps exactly the setting's rows, in order, and appending commutes with it. */
  lemma {:induction false} UsersUnderMembers(users: seq<UserRow>, setting: Setting)
    ensures forall u :: u in UsersUnder(users, setting) <==> u in users && Policy(u.tenantId, setting)
  {
    if users == [] {
    } else {
      var n := |users| - 1;
      UsersUnderMembers(users[..n], setting);
      assert users == users[..n] + [users[n]];
    }
  }

  lemma UsersUnderAppend(users: seq<UserRow>, u: UserRow, setting: Setting)
    ensures UsersUnder(users + [u], setting)
         == UsersUnder(users, setting) + (if Policy(u.tenantId, setting) then [u] else [])
  {
    assert (users + [u])[..|users|] == users;
  }

  lemma {:induction false} NotesUnderMembers(notes: seq<NoteRow>, setting: Setting)
    ensures forall n :: n in NotesUnder(notes, setting) <==> n in notes && Policy(n.tenantId, setting)
  {
    if notes == [] {
    } else {
      var k := |notes| - 1;
      NotesUnderMembers(notes[..k], setting);
      assert notes == notes[..k] + [notes[k]];
    }
  }

  lemma NotesUnderAppend(notes: seq<NoteRow>, n: NoteRow, setting: Setting)
    ensures NotesUnder(notes + [n], setting)
         == NotesUnder(notes, setting) + (if Policy(n.tenantId, setting) then [n] else [])
  {
    assert (notes + [n])[..|notes|] == notes;
  }

  lemma {:induction false} UsersUnderAll(users: seq<UserRow>, setting: Setting)
    requires forall u | u in users :: Policy(u.tenantId, setting)
    ensures UsersUnder(users, setting) == users
  {
    if users == [] {
    } else {
      var n := |users| - 1;
      UsersUnderAll(users[..n], setting);
      assert users == users[..n] + [users[n]];
    }
  }

  lemma {:induction false} NotesUnderAll(notes: seq<NoteRow>, setting: Setting)
    requires forall n | n in notes :: Policy(n.tenantId, setting)
    ensures NotesUnder(notes, setting) == notes
  {
    if notes == [] {
    } else {
      var n := |notes| - 1;
      NotesUnderAll(notes[..n], setting);
      assert notes == notes[..n] + [notes[n]];
    }
  }

  /** UNIQUE (tenant_id, email); in a private database the tenant column says nothing. */
  predicate SameKey(g: Guard, u: UserRow, tenantId: Uuid, email: string) {
    (g.Rls? ==> u.tenantId == tenantId) && u.email == email
  }

  predicate Taken(g: Guard, users: seq<UserRow>, tenantId: Uuid, email: string) {
    exists u | u in users :: SameKey(g, u, tenantId, email)
  }
}
