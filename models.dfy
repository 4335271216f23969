/** The `users` table (backend/models/user.js). */
module UserModel {
  import opened Base

  const Admin: string := "admin"
  const Editor: string := "editor"
  const Visualizador: string := "visualizador"

  /** The `isIn` validator of the role column. */
  predicate IsRole(role: string)
  {
    role == Admin || role == Editor || role == Visualizador
  }

  /** A row of `users`. Username, email and password are non-null columns, so plain strings;
      `password` holds the bcrypt hash, never the plaintext. */
  datatype Account = Account(
    id: int,
    username: string,
    email: string,
    password: string,
    role: string,
    active: bool,
    createdAt: nat)

  /** A row the role validator accepts. */
  predicate Conforms(a: Account)
  {
    IsRole(a.role)
  }

  /** The unique constraint on `email`: no two rows share an email. */
  predicate UniqueEmails(users: map<int, Account>)
  {
    forall i, j :: i in users && j in users && users[i].email == users[j].email ==> i == j
  }

  /** Some row has this email. */
  predicate EmailTaken(users: map<int, Account>, email: string)
  {
    exists id :: id in users && users[id].email == email
  }

  /** The column rules of `User.create`: the defaults fill an absent role and active flag, and
      the `isIn` validator refuses a role outside the three, in which case no row is created.
      Here `None` stands for `undefined` only, the one case in which the defaults apply; the
      unique index on `email` is a separate refusal, stated by `UniqueEmails`. */
  function NewAccount(id: int, username: string, email: string, password: string,
                      role: Option<string>, active: Option<bool>, now: nat): (r: Option<Account>)
    ensures r.Some? <==> role.None? || IsRole(role.value)
    ensures r.Some? ==> Conforms(r.value)
    ensures r.Some? ==> r.value.role == (if role.Some? then role.value else Visualizador)
    ensures r.Some? ==> r.value.active == (active.Some? && active.value)
    ensures r.Some? ==> r.value.id == id && r.value.username == username && r.value.email == email
                        && r.value.password == password && r.value.createdAt == now
  {
    if role.Some? && !IsRole(role.value) then None
    else
      Some(Account(id, username, email, password,
                   match role case Some(x) => x case None => Visualizador,
                   match active case Some(b) => b case None => false,
                   now))
  }
}

/** The `userActivation` table (backend/models/userActivation.js): outstanding activation codes. */
module UserActivationModel {

  /** A row of `userActivation`; both columns are non-null. */
  datatype Activation = Activation(userId: int, activationCode: string)
}

/** The `use_case` table (backend/models/useCase.js). */
module UseCaseModel {
  import opened Base

  /** The eight content columns of a use case, each as a request body or a history row may hold
      it: possibly absent. */
  datatype Fields = Fields(
    title: Option<string>,
    description: Option<string>,
    actor: Option<string>,
    preconditions: Option<string>,
    postconditions: Option<string>,
    mainFlow: Option<string>,
    alternativeFlows: Option<string>,
    exceptions: Option<string>)

  /** The `allowNull: false` constraints: every content column but `exceptions` is present. */
  predicate Complete(f: Fields)
  {
    && f.title.Some? && f.description.Some? && f.actor.Some?
    && f.preconditions.Some? && f.postconditions.Some?
    && f.mainFlow.Some? && f.alternativeFlows.Some?
  }

  /** A row of `use_case`. `createdBy` is nullable; `createdAt` and `updatedAt` are set from the
      clock on insert and, with automatic timestamps off, never refreshed. */
  datatype UseCase = UseCase(
    id: int,
    fields: Fields,
    createdBy: Option<int>,
    createdAt: nat,
    updatedAt: nat)

  /** A row the schema accepts. */
  predicate Conforms(u: UseCase)
  {
    Complete(u.fields)
  }

  function CreatedAt(u: UseCase): int
  {
    u.createdAt
  }
}

/** The `use_case_history` table (backend/models/useCaseHistory.js). */
module UseCaseHistoryModel {
  import opened UseCaseModel

  /** A row of `use_case_history`: a snapshot of a use case's content columns (all nullable),
      the non-null use case and editor references, and the time of the edit. */
  datatype HistoryEntry = HistoryEntry(
    id: int,
    useCaseId: int,
    snapshot: Fields,
    editedBy: int,
    editedAt: nat)

  function EditedAt(e: HistoryEntry): int
  {
    e.editedAt
  }

  /** `WHERE use_case_id = id`: the entries of one use case, in table order. */
  function EntriesFor(history: seq<HistoryEntry>, useCaseId: int): (r: seq<HistoryEntry>)
    ensures forall e :: e in r ==> e.useCaseId == useCaseId
    ensures forall e: HistoryEntry :: e.useCaseId == useCaseId ==> multiset(r)[e] == multiset(history)[e]
  {
    if |history| == 0 then []
    else
      assert history == [history[0]] + history[1..];
      (if history[0].useCaseId == useCaseId then [history[0]] else [])
        + EntriesFor(history[1..], useCaseId)
  }
}
