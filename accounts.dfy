/** The account handlers of backend/routes/auth.js (register, login, activate, delete-user) and
    backend/routes/userRoutes.js (list users, change role) over an in-memory picture of the
    `users` and `userActivation` tables. Password hashing, hash comparison and e-mail syntax
    checking are foreign calls, passed in as `hash`, `compare` and `isEmail`; the random bytes of
    the activation code and the clock are parameters too. */
module Accounts {
  import opened Base
  import opened CheckRoleMiddleware
  import opened Ordering
  import opened Tables
  import opened UserModel
  import opened UserActivationModel
  import opened ActivationCode

  const DeleteUserRoles: seq<string> := [Admin]
  const ListUsersRoles: seq<string> := [Admin]
  const UpdateRoleRoles: seq<string> := [Admin]

  const UsernameRequired: string := "Username é obrigatório."
  const EmailInvalid: string := "Email inválido."
  const PasswordTooShort: string := "A senha precisa ter no mínimo 6 caracteres."
  const UserExists: string := "Usuário já existe."
  const Registered: string := "Usuário registrado com sucesso! Verifique seu e-mail para ativação."
  const CredentialsRequired: string := "Email e senha são obrigatórios."
  const UserNotFound: string := "Usuário não encontrado."
  const NotActivated: string := "Usuário não ativado. Verifique seu e-mail."
  const WrongPassword: string := "Senha incorreta."
  const LoggedIn: string := "Login realizado com sucesso!"
  const ActivationUserNotFound: string := "Usuário não encontrado!"
  const InvalidCode: string := "Código de ativação inválido!"
  const Activated: string := "Usuário ativado com sucesso!"
  const UserDeleted: string := "Usuário excluído com sucesso!"
  const InvalidRole: string := "Papel inválido."
  const RoleUpdated: string := "Papel atualizado com sucesso."

  /** The three administrative routes admit admins only. */
  lemma AccountRouteRoles(user: Claims)
    ensures CheckRole(DeleteUserRoles, Some(user)) == Proceed <==> user.role == Admin
    ensures CheckRole(ListUsersRoles, Some(user)) == Proceed <==> user.role == Admin
    ensures CheckRole(UpdateRoleRoles, Some(user)) == Proceed <==> user.role == Admin
  {
  }

  /** `expiresIn: "1h"`, in seconds. */
  const OneHour: nat := 3600

  /** The body of POST /register. A `role` in it is read by nobody. */
  datatype Registration = Registration(
    username: Option<string>,
    email: Option<string>,
    password: Option<string>,
    role: Option<string>)

  /** What `jwt.sign` is asked to sign: the payload and the lifetime in seconds. */
  datatype TokenRequest = TokenRequest(payload: Claims, expiresIn: nat)

  /** The body of a successful login. */
  datatype Session = Session(message: string, token: TokenRequest)

  /** A row of the GET /users answer: the account without its password hash. */
  datatype UserView = UserView(id: int, username: string, email: string, role: string,
                               active: bool, createdAt: nat)

  function View(a: Account): (v: UserView)
    ensures v.id == a.id && v.username == a.username && v.email == a.email && v.role == a.role
    ensures v.active == a.active && v.createdAt == a.createdAt
  {
    UserView(a.id, a.username, a.email, a.role, a.active, a.createdAt)
  }

  function ViewCreatedAt(v: UserView): int
  {
    v.createdAt
  }

  /** The validation chain of POST /register, every failing rule in declaration order; an
      absent field is validated as the empty string. */
  function RegistrationErrors(body: Registration, isEmail: string -> bool): (errors: seq<string>)
    ensures UsernameRequired in errors <==> !Truthy(body.username)
    ensures EmailInvalid in errors <==> !isEmail(OrEmpty(body.email))
    ensures PasswordTooShort in errors <==> |OrEmpty(body.password)| < 6
    ensures forall i :: 0 <= i < |errors| ==> errors[i] in [UsernameRequired, EmailInvalid, PasswordTooShort]
  {
    (if Truthy(body.username) then [] else [UsernameRequired])
    + (if isEmail(OrEmpty(body.email)) then [] else [EmailInvalid])
    + (if |OrEmpty(body.password)| >= 6 then [] else [PasswordTooShort])
  }

  /** The projection of each row, in order. */
  function Views(rows: seq<Account>): (views: seq<UserView>)
    ensures |views| == |rows|
    ensures forall i :: 0 <= i < |rows| ==> views[i] == View(rows[i])
  {
    if |rows| == 0 then [] else [View(rows[0])] + Views(rows[1..])
  }

  /** Projecting a full scan and reordering it lists each account's view and nothing else. */
  lemma ListedViews(users: map<int, Account>, hi: int, views: seq<UserView>, r: seq<UserView>)
    requires forall id :: id in users ==> 1 <= id < hi
    requires views == Views(Rows(users, 1, hi))
    requires forall i :: 0 <= i < |views| ==> views[i] in r
    requires forall i :: 0 <= i < |r| ==> r[i] in views
    ensures forall v :: v in r <==> exists id :: id in users && v == View(users[id])
  {
    var rows := Rows(users, 1, hi);
    forall v | v in r
      ensures exists id :: id in users && v == View(users[id])
    {
      var i :| 0 <= i < |views| && views[i] == v;
      assert rows[i] in rows;
      var id :| 1 <= id < hi && id in users && users[id] == rows[i];
    }
    forall id | id in users
      ensures View(users[id]) in r
    {
      var i :| 0 <= i < |rows| && rows[i] == users[id];
      assert views[i] == View(users[id]);
    }
  }

  class AccountStore {
    var users: map<int, Account>
    var activations: set<Activation>
    var nextUserId: int   // the auto-increment counter of users.id

    /** Rows are keyed by their id and meet the schema, emails are unique, every outstanding
        activation record names an issued id, no account has two of them, and an account that
        still has one has not been activated. */
    ghost predicate Valid()
      reads this
    {
      && 1 <= nextUserId
      && (forall id :: id in users ==> users[id].id == id && 1 <= id < nextUserId)
      && (forall id :: id in users ==> Conforms(users[id]))
      && UniqueEmails(users)
      && (forall a :: a in activations ==> 1 <= a.userId < nextUserId)
      && (forall a, b :: a in activations && b in activations && a.userId == b.userId ==> a == b)
      && (forall a :: a in activations && a.userId in users ==> !users[a.userId].active)
    }

    constructor ()
      ensures Valid()
      ensures users == map[] && activations == {} && nextUserId == 1
    {
      users := map[];
      activations := {};
      nextUserId := 1;
    }

    /** `User.findOne({ where: { email } })`. */
    function FindByEmail(email: string): (r: Option<Account>)
      reads this
      requires Valid()
      ensures r.Some? <==> EmailTaken(users, email)
      ensures r.Some? ==> r.value.id in users && users[r.value.id] == r.value && r.value.email == email
    {
      match FindKey(users, 1, nextUserId, (a: Account) => a.email == email)
      case None => None
      case Some(id) => Some(users[id])
    }

    /** POST /register. */
    method Register(body: Registration, isEmail: string -> bool, hash: string -> string,
                    randomBytes: seq<byte>, now: nat) returns (r: Reply<string>)
      requires Valid()
      requires |randomBytes| == 3
      requires !isEmail("")  // validator.js refuses the empty string
      modifies this
      ensures Valid()
      ensures RegistrationErrors(body, isEmail) != []
          ==> r == Fail(400, RegistrationErrors(body, isEmail)) && unchanged(this)
      ensures RegistrationErrors(body, isEmail) == [] && EmailTaken(old(users), OrEmpty(body.email))
          ==> r == Fail(400, [UserExists]) && unchanged(this)
      ensures RegistrationErrors(body, isEmail) == [] && !EmailTaken(old(users), OrEmpty(body.email)) ==>
          && old(nextUserId) !in old(users)
          && users == old(users)[old(nextUserId) :=
               Account(old(nextUserId), OrEmpty(body.username), OrEmpty(body.email),
                       hash(OrEmpty(body.password)), Visualizador, false, now)]
          && activations == old(activations) + {Activation(old(nextUserId), Generate(randomBytes))}
          && nextUserId == old(nextUserId) + 1
          && r == Ok(201, Registered)
    {
      var errors := RegistrationErrors(body, isEmail);
      if errors != [] {
        return Fail(400, errors);
      }
      var email := OrEmpty(body.email);
      if FindByEmail(email).Some? {
        return Fail(400, [UserExists]);
      }
      var id := nextUserId;
      var created := NewAccount(id, OrEmpty(body.username), email, hash(OrEmpty(body.password)),
                                Some(Visualizador), Some(false), now);
      var account := created.value;
      users := users[id := account];
      nextUserId := nextUserId + 1;
      activations := activations + {Activation(id, Generate(randomBytes))};
      r := Ok(201, Registered);
    }

    /** POST /login: a read-only decision, checked in the order missing field, unknown email,
        inactive account, wrong password. */
    function Login(email: Option<string>, password: Option<string>,
                   compare: (string, string) -> bool): (r: Reply<Session>)
      reads this
      requires Valid()
      ensures !Truthy(email) || !Truthy(password) ==> r == Fail(400, [CredentialsRequired])
      ensures Truthy(email) && Truthy(password) && !EmailTaken(users, email.value)
          ==> r == Fail(404, [UserNotFound])
      ensures forall id :: Truthy(email) && Truthy(password) && id in users && users[id].email == email.value ==>
          var a := users[id];
          var matches := compare(password.value, a.password);
          && (!a.active ==> r == Fail(400, [NotActivated]))
          && (a.active && !matches ==> r == Fail(401, [WrongPassword]))
          && (a.active && matches ==> r == Ok(200, Session(LoggedIn, TokenRequest(Claims(id, a.username, a.role), OneHour))))
      ensures r.Ok? ==> IsRole(r.value.token.payload.role)
    {
      if !Truthy(email) || !Truthy(password) then Fail(400, [CredentialsRequired])
      else
        match FindByEmail(email.value)
        case None => Fail(404, [UserNotFound])
        case Some(user) =>
          if !user.active then Fail(400, [NotActivated])
          else if !compare(password.value, user.password) then Fail(401, [WrongPassword])
          else Ok(200, Session(LoggedIn, TokenRequest(Claims(user.id, user.username, user.role), OneHour)))
    }

    /** POST /activate: unknown email, then a record matching the account and the code exactly;
        on success the account becomes active and the record is deleted. */
    method Activate(email: string, code: string) returns (r: Reply<string>)
      requires Valid()
      modifies this
      ensures Valid()
      ensures nextUserId == old(nextUserId)
      ensures !EmailTaken(old(users), email)
          ==> r == Fail(404, [ActivationUserNotFound]) && unchanged(this)
      ensures forall id :: id in old(users) && old(users)[id].email == email ==>
          && (Activation(id, code) !in old(activations) ==> r == Fail(400, [InvalidCode]) && unchanged(this))
          && (Activation(id, code) in old(activations) ==>
                && r == Ok(200, Activated)
                && users == old(users)[id := old(users)[id].(active := true)]
                && activations == old(activations) - {Activation(id, code)})
    {
      var found := FindByEmail(email);
      if found.None? {
        return Fail(404, [ActivationUserNotFound]);
      }
      var user := found.value;
      var record := Activation(user.id, code);
      if record !in activations {
        return Fail(400, [InvalidCode]);
      }
      users := users[user.id := user.(active := true)];
      activations := activations - {record};
      r := Ok(200, Activated);
    }

    /** DELETE /delete-user/:id: removes the account row only; its activation records stay. */
    method DeleteUser(id: int) returns (r: Reply<string>)
      requires Valid()
      modifies this
      ensures Valid()
      ensures activations == old(activations) && nextUserId == old(nextUserId)
      ensures id !in old(users) ==> r == Fail(404, [UserNotFound]) && users == old(users)
      ensures id in old(users) ==> r == Ok(200, UserDeleted) && users == old(users) - {id}
    {
      if id !in users {
        return Fail(404, [UserNotFound]);
      }
      users := users - {id};
      r := Ok(200, UserDeleted);
    }

    /** GET /users: the projection of every account, once each, newest first. */
    function ListUsers(): (r: seq<UserView>)
      reads this
      requires Valid()
      ensures forall v :: v in r <==> exists id :: id in users && v == View(users[id])
      ensures NewestFirst(r, ViewCreatedAt)
      ensures |r| == |users|
    {
      var rows := Rows(users, 1, nextUserId);
      assert (set k | 1 <= k < nextUserId && k in users) == users.Keys;
      var views := Views(rows);
      var r := SortDesc(views, ViewCreatedAt);
      assert |multiset(r)| == |multiset(views)|;
      ListedViews(users, nextUserId, views, r);
      r
    }

    /** PUT /users/:id/role: the role is validated before the lookup. */
    method UpdateRole(id: int, role: Option<string>) returns (r: Reply<string>)
      requires Valid()
      modifies this
      ensures Valid()
      ensures activations == old(activations) && nextUserId == old(nextUserId)
      ensures !(role.Some? && IsRole(role.value)) ==> r == Fail(400, [InvalidRole]) && unchanged(this)
      ensures role.Some? && IsRole(role.value) && id !in old(users)
          ==> r == Fail(404, [UserNotFound]) && unchanged(this)
      ensures role.Some? && IsRole(role.value) && id in old(users) ==>
          && r == Ok(200, RoleUpdated)
          && users == old(users)[id := old(users)[id].(role := role.value)]
    {
      if !(role.Some? && IsRole(role.value)) {
        return Fail(400, [InvalidRole]);
      }
      if id !in users {
        return Fail(404, [UserNotFound]);
      }
      users := users[id := users[id].(role := role.value)];
      r := Ok(200, RoleUpdated);
    }
  }
}
