/**
 The authenticated note routes: bearer token, tenant context, role check, and the
 controller over the note repository.
 */
module NoteRoutes {
  import opened Prelude
  import opened Tokens
  import opened TenantTables
  import opened TenantMachine
  import opened TenantTransactions
  import opened TenantUsecases
  import AuthUsecases

  datatype AuthUser = AuthUser(userId: Uuid, tenantId: Uuid, role: Role, email: string)

  function AuthUserOf(claims: Claims): AuthUser {
    AuthUser(claims.sub, claims.tenantId, claims.role, claims.email)
  }

  /** The role check: no required roles, or the user has one of them. */
  predicate CanActivate(required: Option<seq<Role>>, user: Option<AuthUser>) {
    || required.None? || required.value == []
    || (user.Some? && user.value.role in required.value)
  }

  /** Roles required to create a note. */
  const WRITERS := [Admin, Member]

  /** Everybody passes where no role is required; else a user holding one of them, so writers are all but viewers. */
  lemma RoleCheck(required: seq<Role>, user: AuthUser)
    ensures CanActivate(None, None) && CanActivate(None, Some(user)) && CanActivate(Some([]), None)
    ensures required != [] ==> !CanActivate(Some(required), None)
    ensures required != [] ==>
      (CanActivate(Some(required), Some(user)) <==> exists k :: 0 <= k < |required| && required[k] == user.role)
    ensures CanActivate(Some(WRITERS), Some(user)) <==> user.role != Viewer
  {
  }

  // ---- Bearer token ---------------------------------------------------------------

  /** `split(' ')`. */
  function SplitSpaces(s: string): (parts: seq<string>)
    ensures |parts| > 0
  {
    if s == "" then [""]
    else
      var rest := SplitSpaces(s[1..]);
      if s[0] == ' ' then [""] + rest else [[s[0]] + rest[0]] + rest[1..]
  }

  function ExtractBearerToken(header: Option<string>): Option<string> {
    if header.None? then None
    else
      var parts := SplitSpaces(header.value);
      if |parts| < 2 || parts[0] != "Bearer" || parts[1] == "" then None else Some(parts[1])
  }

  /** The part before the first space, and what follows it. */
  lemma {:induction false} FirstPart(s: string, word: string, tail: string)
    requires ' ' !in word && s == word + tail && (tail == "" || tail[0] == ' ')
    ensures SplitSpaces(s) == [word] + (if tail == "" then [] else SplitSpaces(tail[1..]))
    decreases |word|
  {
    if word == "" {
      assert s == tail;
    } else {
      assert s[1..] == word[1..] + tail;
      FirstPart(s[1..], word[1..], tail);
      assert s[0] == word[0] && word[0] in word;
      assert word == [word[0]] + word[1..];
    }
  }

  lemma {:induction false} FirstPartOf(s: string) returns (tail: string)
    ensures ' ' !in SplitSpaces(s)[0] && s == SplitSpaces(s)[0] + tail && (tail == "" || tail[0] == ' ')
    ensures SplitSpaces(s)[1..] == if tail == "" then [] else SplitSpaces(tail[1..])
  {
    if s == "" {
      tail := "";
    } else if s[0] == ' ' {
      tail := s;
    } else {
      tail := FirstPartOf(s[1..]);
    }
  }

  /** `Bearer`, one space, a token without spaces, and nothing or a space after it. */
  ghost predicate BearerForm(header: string, token: string, tail: string) {
    && token != "" && ' ' !in token
    && header == "Bearer" + (" " + (token + tail))
    && (tail == "" || tail[0] == ' ')
  }

  /** The first two parts of a split string and what follows them. */
  lemma FirstTwoParts(s: string) returns (tail: string)
    requires |SplitSpaces(s)| >= 2
    ensures var parts := SplitSpaces(s);
      ' ' !in parts[1] && s == parts[0] + (" " + (parts[1] + tail)) && (tail == "" || tail[0] == ' ')
  {
    var parts := SplitSpaces(s);
    var rest := FirstPartOf(s);
    assert parts[1] == parts[1..][0];
    assert rest == " " + rest[1..];
    tail := FirstPartOf(rest[1..]);
  }

  lemma ExtractedIsBearer(header: string, token: string) returns (tail: string)
    requires ExtractBearerToken(Some(header)) == Some(token)
    ensures BearerForm(header, token, tail)
  {
    tail := FirstTwoParts(header);
  }

  lemma BearerIsExtracted(header: string, token: string, tail: string)
    requires BearerForm(header, token, tail)
    ensures ExtractBearerToken(Some(header)) == Some(token)
  {
    var rest := " " + (token + tail);
    assert header == "Bearer" + rest && rest[1..] == token + tail;
    FirstPart(header, "Bearer", rest);
    FirstPart(token + tail, token, tail);
    var parts := SplitSpaces(header);
    assert parts[1] == SplitSpaces(token + tail)[0];
  }

  /** A header carries a token exactly when it has that form. */
  lemma BearerHeaders(header: string, token: string)
    ensures ExtractBearerToken(Some(header)) == Some(token) <==> exists tail :: BearerForm(header, token, tail)
  {
    if ExtractBearerToken(Some(header)) == Some(token) {
      var tail := ExtractedIsBearer(header, token);
    }
    if exists tail :: BearerForm(header, token, tail) {
      var tail :| BearerForm(header, token, tail);
      BearerIsExtracted(header, token, tail);
    }
  }

  // ---- Middleware and controller -----------------------------------------------------

  class HttpRequest {
    const authorization: Option<string>
    var user: Option<AuthUser>

    constructor (authorization: Option<string>)
      ensures this.authorization == authorization && user == None
    {
      this.authorization, user := authorization, None;
    }
  }

  class JwtTenantContextMiddleware {
    const jwt: AuthUsecases.JwtService
    const storage: TenantContextStorage

    constructor (jwt: AuthUsecases.JwtService, storage: TenantContextStorage)
      ensures this.jwt == jwt && this.storage == storage
    {
      this.jwt, this.storage := jwt, storage;
    }

    /**
     Lets the request on, under the claims' tenant and user, exactly when its header
     carries an access token this server signed and that has not expired. `decode`
     reads the compact form of a token.
     */
    method Use(req: HttpRequest, decode: string -> Option<Token>, now: nat)
      returns (entered: bool, ghost token: Option<Token>)
      modifies req, storage
      ensures token == (match ExtractBearerToken(req.authorization) case None => None case Some(text) => decode(text))
      ensures entered <==>
        token.Some? && token.value.AccessToken? && token.value in jwt.accessSigned && Unexpired(token.value.exp, now)
      ensures entered ==>
        var Claims(sub, tenantId, role, email) := token.value.claims;
        && req.user.Some? && req.user.value.userId == sub && req.user.value.tenantId == tenantId
        && req.user.value.role == role && req.user.value.email == email
        && storage.current == Some(tenantId)
      ensures !entered ==> req.user == old(req.user) && storage.current == old(storage.current)
    {
      token := None;
      var text := ExtractBearerToken(req.authorization);
      if text.None? {
        return false, None;
      }
      var presented := decode(text.value);
      token := presented;
      if presented.None? || !presented.value.AccessToken? || presented.value !in jwt.accessSigned
         || now / 1000 >= presented.value.exp {
        return false, token;
      }
      var claims := presented.value.claims;
      req.user := Some(AuthUser(claims.sub, claims.tenantId, claims.role, claims.email));
      var _ := storage.Enter(claims.tenantId);
      entered := true;
    }
  }

  datatype RouteResult = Forbidden | Handled(outcome: Outcome)

  class TenantNoteController {
    const notes: TenantNoteRepository

    constructor (notes: TenantNoteRepository)
      ensures this.notes == notes
    {
      this.notes := notes;
    }

    /** POST: writers only; the note carries the context's tenant, so the policy never objects. */
    method Create(req: HttpRequest, content: string, call: Call) returns (result: RouteResult)
      requires notes.tx.db.Healthy() && notes.tx.db.leased < notes.tx.db.size
      modifies notes.tx.db
      ensures notes.tx.db.Healthy() && notes.tx.db.users == old(notes.tx.db.users)
      ensures result.Forbidden? <==> !(req.user.Some? && req.user.value.role in {Admin, Member})
      ensures result.Forbidden? || result.outcome.Threw? ==> notes.tx.db.notes == old(notes.tx.db.notes)
      ensures result.Handled? && result.outcome.Returned? ==>
        && notes.tx.storage.current.Some?
        && var note := NoteRow(call.id, notes.tx.storage.current.value, content, call.at, call.r);
           result.outcome.value == NoteCreated(note) && notes.tx.db.notes == old(notes.tx.db.notes) + [note]
      ensures result.Handled? ==> result.outcome != Threw(PolicyViolation)
      ensures result.Handled? && call.faults == NO_FAULTS && notes.tx.storage.current.Some? ==> result.outcome.Returned?
    {
      if !CanActivate(Some(WRITERS), req.user) {
        return Forbidden;
      }
      var tenantId := notes.tx.storage.RequireStore();
      if tenantId.None? {
        return Handled(Threw(NoTenantContext));
      }
      var outcome := notes.Create(tenantId.value, content, call);
      result := Handled(outcome);
    }

    /** GET: any verified user; exactly the context tenant's notes, each as often as stored, newest first. */
    method FindAll(call: Call) returns (outcome: Outcome)
      requires notes.tx.db.Healthy() && notes.tx.db.leased < notes.tx.db.size
      modifies notes.tx.db
      ensures notes.tx.db.Healthy() && notes.tx.db.notes == old(notes.tx.db.notes)
      ensures outcome.Returned? ==>
        && notes.tx.storage.current.Some? && outcome.value.NotesListed? && Descending(outcome.value.notes)
        && multiset(outcome.value.notes) == multiset(NotesUnder(notes.tx.db.notes, notes.tx.storage.current))
        && forall n :: n in outcome.value.notes <==>
                       n in notes.tx.db.notes && n.tenantId == notes.tx.storage.current.value
      ensures call.faults == NO_FAULTS && notes.tx.storage.current.Some? ==> outcome.Returned?
    {
      outcome := notes.FindAll(call);
    }
  }
}
