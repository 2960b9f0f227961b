/** The repositories over `TenantTransaction`, and the user use case over them. */
module TenantUsecases {
  import opened Prelude
  import opened TenantTables
  import opened TenantMachine
  import opened TenantTransactions

  /** Identity, row id and clock reading a call draws, and the failures it meets. */
  datatype Call = Call(r: ReqId, id: Uuid, at: nat, faults: Faults)

  function ReqFor(kind: Kind, hash: Option<string>): Req {
    Req(kind, hash, Waiting, 0, 0, [])
  }

  class UserRepository {
    const tx: TenantTransaction

    constructor (tx: TenantTransaction)
      ensures this.tx == tx
    {
      this.tx := tx;
    }

    /** Insert under the context's tenant: refused by policy, by the unique pair, or stored. */
    method Create(tenantId: Uuid, email: string, hash: string, role: Role, call: Call) returns (outcome: Outcome)
      requires tx.db.Healthy() && tx.db.leased < tx.db.size
      modifies tx.db
      ensures tx.db.Healthy() && tx.db.leased == old(tx.db.leased) && tx.db.notes == old(tx.db.notes)
      ensures outcome.Returned? ==>
        var row := UserRow(call.id, tenantId, email, hash, role, call.at, call.r);
        && outcome == Returned(UserCreated(row)) && tx.db.users == old(tx.db.users) + [row]
        && tx.storage.current == Some(tenantId) && !Taken(Rls, old(tx.db.users), tenantId, email)
      ensures outcome.Threw? ==> tx.db.users == old(tx.db.users)
      ensures call.faults == NO_FAULTS && tx.storage.current.Some? ==>
        outcome.Threw? ==>
          outcome.error == if tx.storage.current != Some(tenantId) then PolicyViolation else UniqueViolation
      ensures call.faults == NO_FAULTS && tx.storage.current == Some(tenantId) ==>
        (Taken(Rls, old(tx.db.users), tenantId, email) || outcome.Returned?)
      ensures outcome == Threw(UniqueViolation) ==>
        tx.storage.current == Some(tenantId) && Taken(Rls, tx.db.users, tenantId, email)
      ensures outcome != Threw(Conflict)
    {
      outcome := tx.Run(call.r, ReqFor(Register(tenantId, email, role), Some(hash)), call.id, call.at, call.faults);
    }

    /** The context tenant's user with this email, if any. */
    method FindByEmail(email: string, call: Call) returns (outcome: Outcome)
      requires tx.db.Healthy() && tx.db.leased < tx.db.size
      modifies tx.db
      ensures tx.db.Healthy() && tx.db.leased == old(tx.db.leased)
      ensures tx.db.users == old(tx.db.users) && tx.db.notes == old(tx.db.notes)
      ensures outcome.Returned? ==>
        && tx.storage.current.Some? && outcome.value.UserFound?
        && (outcome.value.user.Some? <==> Taken(Rls, tx.db.users, tx.storage.current.value, email))
        && (outcome.value.user.Some? ==>
              && outcome.value.user.value in tx.db.users && outcome.value.user.value.email == email
              && outcome.value.user.value.tenantId == tx.storage.current.value)
      ensures outcome.Threw? ==> outcome.error !in {Conflict, UniqueViolation, Unauthorized}
      ensures call.faults == NO_FAULTS && tx.storage.current.Some? ==> outcome.Returned?
    {
      outcome := tx.Run(call.r, ReqFor(Kind.FindByEmail(email), None), call.id, call.at, call.faults);
      UsersUnderMembers(tx.db.users, tx.storage.current);
    }

    method FindById(id: Uuid, call: Call) returns (outcome: Outcome)
      requires tx.db.Healthy() && tx.db.leased < tx.db.size
      modifies tx.db
      ensures tx.db.Healthy() && tx.db.leased == old(tx.db.leased)
      ensures tx.db.users == old(tx.db.users) && tx.db.notes == old(tx.db.notes)
      ensures outcome.Returned? ==>
        && tx.storage.current.Some? && outcome.value.UserFound?
        && (outcome.value.user.None? <==>
              forall u | u in tx.db.users && u.tenantId == tx.storage.current.value :: u.id != id)
        && (outcome.value.user.Some? ==>
              && outcome.value.user.value in tx.db.users && outcome.value.user.value.id == id
              && outcome.value.user.value.tenantId == tx.storage.current.value)
      ensures call.faults == NO_FAULTS && tx.storage.current.Some? ==> outcome.Returned?
    {
      outcome := tx.Run(call.r, ReqFor(Kind.FindById(id), None), call.id, call.at, call.faults);
      UsersUnderMembers(tx.db.users, tx.storage.current);
    }
  }

  class TenantNoteRepository {
    const tx: TenantTransaction

    constructor (tx: TenantTransaction)
      ensures this.tx == tx
    {
      this.tx := tx;
    }

    method Create(tenantId: Uuid, content: string, call: Call) returns (outcome: Outcome)
      requires tx.db.Healthy() && tx.db.leased < tx.db.size
      modifies tx.db
      ensures tx.db.Healthy() && tx.db.leased == old(tx.db.leased) && tx.db.users == old(tx.db.users)
      ensures outcome.Returned? ==>
        var row := NoteRow(call.id, tenantId, content, call.at, call.r);
        && outcome == Returned(NoteCreated(row)) && tx.db.notes == old(tx.db.notes) + [row]
        && tx.storage.current == Some(tenantId)
      ensures outcome.Threw? ==> tx.db.notes == old(tx.db.notes)
      ensures outcome == Threw(PolicyViolation) ==> tx.storage.current != Some(tenantId)
      ensures call.faults == NO_FAULTS && tx.storage.current == Some(tenantId) ==> outcome.Returned?
    {
      outcome := tx.Run(call.r, ReqFor(WriteNote(tenantId, content), None), call.id, call.at, call.faults);
    }

    /** The context tenant's notes and no others, newest first. */
    method FindAll(call: Call) returns (outcome: Outcome)
      requires tx.db.Healthy() && tx.db.leased < tx.db.size
      modifies tx.db
      ensures tx.db.Healthy() && tx.db.leased == old(tx.db.leased)
      ensures tx.db.users == old(tx.db.users) && tx.db.notes == old(tx.db.notes)
      ensures outcome.Returned? ==>
        && tx.storage.current.Some? && outcome.value.NotesListed? && Descending(outcome.value.notes)
        && multiset(outcome.value.notes) == multiset(NotesUnder(tx.db.notes, tx.storage.current))
        && forall n :: n in outcome.value.notes <==> n in tx.db.notes && n.tenantId == tx.storage.current.value
      ensures call.faults == NO_FAULTS && tx.storage.current.Some? ==> outcome.Returned?
    {
      outcome := tx.Run(call.r, ReqFor(ListNotes, None), call.id, call.at, call.faults);
      if outcome.Returned? {
        ghost var visible := NotesUnder(tx.db.notes, tx.storage.current);
        NewestFirstSorts(visible);
        NotesUnderMembers(tx.db.notes, tx.storage.current);
        assert forall n :: n in outcome.value.notes <==> n in multiset(outcome.value.notes);
      }
    }
  }

  class UserUsecase {
    const repo: UserRepository

    constructor (repo: UserRepository)
      ensures this.repo == repo
    {
      this.repo := repo;
    }

    /**
     Check, hash, insert. A value means this call stored the only row of its pair;
     Conflict means the pair has a row; a unique violation is never passed on.
     `first` and `second` are the two repository calls.
     */
    method Register(tenantId: Uuid, email: string, role: Role, hash: string, first: Call, second: Call)
      returns (outcome: Outcome)
      requires repo.tx.db.Healthy() && repo.tx.db.leased < repo.tx.db.size
      modifies repo.tx.db
      ensures repo.tx.db.Healthy() && repo.tx.db.leased == old(repo.tx.db.leased)
      ensures outcome.Returned? ==>
        var row := UserRow(second.id, tenantId, email, hash, role, second.at, second.r);
        && outcome == Returned(UserCreated(row)) && repo.tx.db.users == old(repo.tx.db.users) + [row]
        && repo.tx.storage.current == Some(tenantId) && !Taken(Rls, old(repo.tx.db.users), tenantId, email)
      ensures outcome.Threw? ==> repo.tx.db.users == old(repo.tx.db.users) && outcome.error != UniqueViolation
      ensures outcome == Threw(Conflict) ==>
        repo.tx.storage.current.Some? && Taken(Rls, repo.tx.db.users, repo.tx.storage.current.value, email)
      ensures first.faults == NO_FAULTS && second.faults == NO_FAULTS && repo.tx.storage.current == Some(tenantId) ==>
        (outcome.Returned? <==> !Taken(Rls, old(repo.tx.db.users), tenantId, email))
        && (outcome.Threw? ==> outcome == Threw(Conflict))
    {
      var existing := repo.FindByEmail(email, first);
      if existing.Threw? {
        return existing;
      }
      if existing.value.user.Some? {
        return Threw(Conflict);
      }
      outcome := repo.Create(tenantId, email, hash, role, second);
      if outcome == Threw(UniqueViolation) {
        outcome := Threw(Conflict);
      }
    }

    /**
     `compare` stands for the password comparison against the stored hash. An unknown
     email and a wrong password give the same error.
     */
    method ValidateCredentials(email: string, password: string, compare: (string, string) -> bool, call: Call)
      returns (outcome: Outcome)
      requires repo.tx.db.Healthy() && repo.tx.db.leased < repo.tx.db.size
      modifies repo.tx.db
      ensures repo.tx.db.Healthy() && repo.tx.db.leased == old(repo.tx.db.leased)
      ensures repo.tx.db.users == old(repo.tx.db.users) && repo.tx.db.notes == old(repo.tx.db.notes)
      ensures outcome.Returned? ==>
        && outcome.value.UserFound? && outcome.value.user.Some?
        && var user := outcome.value.user.value;
           && user in repo.tx.db.users && user.email == email && compare(password, user.passwordHash)
           && repo.tx.storage.current == Some(user.tenantId)
      ensures outcome == Threw(Unauthorized) ==>
        && repo.tx.storage.current.Some?
        && (|| !Taken(Rls, repo.tx.db.users, repo.tx.storage.current.value, email)
            || exists u | u in repo.tx.db.users ::
                 u.tenantId == repo.tx.storage.current.value && u.email == email && !compare(password, u.passwordHash))
      ensures call.faults == NO_FAULTS && repo.tx.storage.current.Some? ==>
        (outcome.Threw? ==> outcome == Threw(Unauthorized))
    {
      outcome := repo.FindByEmail(email, call);
      if outcome.Returned? {
        if outcome.value.user.None? || !compare(password, outcome.value.user.value.passwordHash) {
          outcome := Threw(Unauthorized);
        }
      }
    }
  }
}
