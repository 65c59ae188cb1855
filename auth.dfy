/** Registration and login: the input checks of `/register`, `/signup` and
    `/login` over a store of users with unique e-mail addresses. Password
    hashing and comparison are parameters; the signed token is not modelled. */
module Auth {
  import opened Js

  /** A `User` document. `passwordHash` is what the model's save hook
      stores; the plain password is never kept. */
  datatype User = User(id: UserId, name: string, email: string, passwordHash: string, balance: real)

  /** The `user` object of a success response: id, name, e-mail and balance. */
  datatype PublicUser = PublicUser(id: UserId, name: string, email: string, balance: real)

  function Public(u: User): PublicUser {
    PublicUser(u.id, u.name, u.email, u.balance)
  }

  /** A failure body: the status with its `error` and `message` texts. */
  datatype AuthError = AuthError(status: nat, error: string, message: string)

  /** A response: a failure, or a success with its status, `message` text and
      public user (the token beside it is not modelled). */
  datatype AuthResult =
    | Denied(failure: AuthError)
    | Granted(status: nat, message: string, user: PublicUser)

  const AllFieldsRequired := AuthError(400, "All fields are required", "All fields are required")
  const PasswordTooShort := AuthError(400, "Password must be at least 6 characters", "Password must be at least 6 characters")
  const EmailTaken := AuthError(400, "Email already registered", "Email already registered")
  const CredentialsRequired := AuthError(400, "Email and password are required", "Email and password are required")
  const InvalidCredentials := AuthError(401, "Invalid credentials", "Invalid email or password")

  const MinPasswordLength := 6

  ghost predicate UniqueEmails(users: seq<User>) {
    forall i, j :: 0 <= i < j < |users| ==> users[i].email != users[j].email
  }

  ghost predicate UniqueIds(users: seq<User>) {
    forall i, j :: 0 <= i < j < |users| ==> users[i].id != users[j].id
  }

  /** `User.findOne({ email })`. */
  function FindByEmail(users: seq<User>, email: string): (r: Option<nat>)
    ensures r.Some? ==> r.value < |users| && users[r.value].email == email
    ensures r.Some? ==> forall j :: 0 <= j < r.value ==> users[j].email != email
    ensures r.None? <==> forall j :: 0 <= j < |users| ==> users[j].email != email
  {
    if |users| == 0 then None
    else if users[0].email == email then Some(0)
    else
      match FindByEmail(users[1..], email)
      case None => None
      case Some(k) => Some(k + 1)
  }

  /** The checks shared by `/register` and `/signup`, in order: every field
      present and non-empty, a password of at least six characters, and an
      e-mail address nobody has registered. `None` means the user is
      created. */
  function RegistrationCheck(users: seq<User>, name: Option<string>, email: Option<string>, password: Option<string>)
    : (r: Option<AuthError>)
    ensures r.None? <==>
      && TruthyStr(name) && TruthyStr(email) && TruthyStr(password)
      && |password.value| >= MinPasswordLength
      && forall j :: 0 <= j < |users| ==> users[j].email != email.value
    ensures r.Some? ==> r.value.status == 400
    ensures r == Some(PasswordTooShort) <==>
      TruthyStr(name) && TruthyStr(email) && TruthyStr(password) && |password.value| < MinPasswordLength
  {
    if !TruthyStr(name) || !TruthyStr(email) || !TruthyStr(password) then Some(AllFieldsRequired)
    else if |password.value| < MinPasswordLength then Some(PasswordTooShort)
    else if FindByEmail(users, email.value).Some? then Some(EmailTaken)
    else None
  }

  /** The response and the user collection after a registration. */
  datatype Registration = Registration(result: AuthResult, users: seq<User>)

  /** Creating the user `name`, `email`, `password` with the next id, the
      starting balance of the user schema and the stored hash. */
  function Register(users: seq<User>, nextId: nat, startBalance: real, hash: string -> string,
                    name: Option<string>, email: Option<string>, password: Option<string>): (reg: Registration)
    ensures reg.result.Granted? <==> RegistrationCheck(users, name, email, password).None?
    ensures reg.result.Denied? ==>
      reg.users == users && Some(reg.result.failure) == RegistrationCheck(users, name, email, password)
    ensures reg.result.Granted? ==>
      && reg.result.status == 201
      && |reg.users| == |users| + 1 && reg.users[..|users|] == users
      && reg.users[|users|] == User(nextId, name.value, email.value, hash(password.value), startBalance)
      && reg.result.user == Public(reg.users[|users|])
  {
    match RegistrationCheck(users, name, email, password)
    case Some(e) => Registration(Denied(e), users)
    case None =>
      var u := User(nextId, name.value, email.value, hash(password.value), startBalance);
      Registration(Granted(201, "Account created successfully", Public(u)), users + [u])
  }

  /** The body of `POST /register`. */
  datatype RegisterRequest = RegisterRequest(name: Option<string>, email: Option<string>, password: Option<string>)

  /** The body of `POST /signup`, which also accepts `fullName`. */
  datatype SignupRequest = SignupRequest(fullName: Option<string>, name: Option<string>, email: Option<string>, password: Option<string>)

  /** `fullName || name`: the full name when it is non-empty, else `name`. */
  function SignupName(req: SignupRequest): (n: Option<string>)
    ensures TruthyStr(req.fullName) ==> n == req.fullName
    ensures !TruthyStr(req.fullName) ==> n == req.name
  {
    if TruthyStr(req.fullName) then req.fullName else req.name
  }

  /** A registration never creates a second user with an address already
      taken; a refused one changes nothing, and an accepted one adds exactly
      the new user, whose public view carries no password. */
  lemma {:induction false} RegisterKeepsEmailsUnique(users: seq<User>, nextId: nat, startBalance: real,
      hash: string -> string, name: Option<string>, email: Option<string>, password: Option<string>)
    requires UniqueEmails(users) && UniqueIds(users)
    requires forall j :: 0 <= j < |users| ==> users[j].id < nextId
    ensures var reg := Register(users, nextId, startBalance, hash, name, email, password);
      && UniqueEmails(reg.users) && UniqueIds(reg.users)
      && (reg.result.Denied? ==> reg.users == users)
      && (reg.result.Granted? ==>
            && reg.users == users + [reg.users[|users|]]
            && reg.users[|users|].email == email.value
            && reg.users[|users|].name == name.value
            && reg.result.user == Public(reg.users[|users|]))
  {
    var reg := Register(users, nextId, startBalance, hash, name, email, password);
    if reg.result.Granted? {
      forall i, j | 0 <= i < j < |reg.users| ensures reg.users[i].email != reg.users[j].email && reg.users[i].id != reg.users[j].id {
        if j == |users| {
          assert reg.users[i] == users[i];
        }
      }
    }
  }

  /** The same address can never be registered twice: right after it is
      registered, any further registration with it is refused, and a second
      request that passes the field and password checks is refused with
      "Email already registered". */
  lemma {:induction false} SecondRegistrationRefused(users: seq<User>, nextId: nat, startBalance: real,
      hash: string -> string, name: Option<string>, email: Option<string>, password: Option<string>,
      name2: Option<string>, password2: Option<string>)
    requires Register(users, nextId, startBalance, hash, name, email, password).result.Granted?
    ensures var users' := Register(users, nextId, startBalance, hash, name, email, password).users;
      Register(users', nextId + 1, startBalance, hash, name2, email, password2).result.Denied?
    ensures TruthyStr(name2) && TruthyStr(password2) && |password2.value| >= MinPasswordLength ==>
      var users' := Register(users, nextId, startBalance, hash, name, email, password).users;
      Register(users', nextId + 1, startBalance, hash, name2, email, password2).result == Denied(EmailTaken)
  {
    var users' := Register(users, nextId, startBalance, hash, name, email, password).users;
    assert users'[|users|].email == email.value;
  }

  // ----------------------------------------------------------------- login

  /** The body of `POST /login`. */
  datatype LoginRequest = LoginRequest(email: Option<string>, password: Option<string>)

  /** `POST /login`. `matches(hash, password)` stands for `comparePassword`.
      A missing field is a 400; otherwise the user with that address whose
      stored hash matches the password is let in, and every other case gets
      the one 401 body. */
  function Login(users: seq<User>, req: LoginRequest, matches: (string, string) -> bool): (r: AuthResult)
    ensures !TruthyStr(req.email) || !TruthyStr(req.password) ==> r == Denied(CredentialsRequired)
    ensures r.Granted? <==>
      && TruthyStr(req.email) && TruthyStr(req.password)
      && exists j :: 0 <= j < |users| && users[j].email == req.email.value && matches(users[j].passwordHash, req.password.value)
           && (forall k :: 0 <= k < j ==> users[k].email != req.email.value)
    ensures r.Granted? ==>
      r.status == 200 && r.user.email == req.email.value &&
      exists j :: 0 <= j < |users| && r.user == Public(users[j])
  {
    if !TruthyStr(req.email) || !TruthyStr(req.password) then Denied(CredentialsRequired)
    else
      match FindByEmail(users, req.email.value)
      case None => Denied(InvalidCredentials)
      case Some(i) =>
        if !matches(users[i].passwordHash, req.password.value) then Denied(InvalidCredentials)
        else
          assert forall k :: 0 <= k < i ==> users[k].email != req.email.value;
          Granted(200, "Login successful", Public(users[i]))
  }

  /** An unknown address and a wrong password are answered with the same
      401 body, so a caller cannot tell which it was. */
  lemma {:induction false} LoginFailuresIndistinguishable(users: seq<User>, req: LoginRequest, matches: (string, string) -> bool)
    requires UniqueEmails(users)
    requires TruthyStr(req.email) && TruthyStr(req.password)
    ensures (forall j :: 0 <= j < |users| ==> users[j].email != req.email.value) ==>
      Login(users, req, matches) == Denied(InvalidCredentials)
    ensures (forall j :: 0 <= j < |users| && users[j].email == req.email.value ==> !matches(users[j].passwordHash, req.password.value)) ==>
      Login(users, req, matches) == Denied(InvalidCredentials)
    ensures Login(users, req, matches).Denied? ==> Login(users, req, matches) == Denied(InvalidCredentials)
  {
  }

  /** A user just registered can log in with the password they chose, when
      comparison accepts the stored hash of that password. */
  lemma {:induction false} RegisteredUserCanLogIn(users: seq<User>, nextId: nat, startBalance: real,
      hash: string -> string, matches: (string, string) -> bool,
      name: Option<string>, email: Option<string>, password: Option<string>)
    requires forall p :: matches(hash(p), p)
    requires Register(users, nextId, startBalance, hash, name, email, password).result.Granted?
    ensures var reg := Register(users, nextId, startBalance, hash, name, email, password);
      Login(reg.users, LoginRequest(email, password), matches) == Granted(200, "Login successful", reg.result.user)
  {
    var reg := Register(users, nextId, startBalance, hash, name, email, password);
    assert FindByEmail(reg.users, email.value) == Some(|users|) by {
      FindAfterAppend(users, reg.users[|users|]);
    }
  }

  lemma {:induction false} FindAfterAppend(users: seq<User>, u: User)
    requires FindByEmail(users, u.email).None?
    ensures FindByEmail(users + [u], u.email) == Some(|users|)
  {
    if users != [] {
      assert (users + [u])[1..] == users[1..] + [u];
      FindAfterAppend(users[1..], u);
    }
  }

  // ------------------------------------------------------------- the store

  class UserStore {
    /** The `User` collection. */
    var users: seq<User>
    var nextId: nat
    /** The schema default for `balance`. */
    const startBalance: real
    /** The schema's save hook that hashes the password. */
    const hash: string -> string

    ghost predicate Valid()
      reads this
    {
      UniqueEmails(users) && UniqueIds(users) && forall j :: 0 <= j < |users| ==> users[j].id < nextId
    }

    constructor (startBalance: real, hash: string -> string)
      ensures Valid() && users == [] && nextId == 0
      ensures this.startBalance == startBalance && this.hash == hash
    {
      users := [];
      nextId := 0;
      this.startBalance := startBalance;
      this.hash := hash;
    }

    method Create(name: Option<string>, email: Option<string>, password: Option<string>) returns (r: AuthResult)
      requires Valid()
      modifies this
      ensures Valid()
      ensures var reg := Register(old(users), old(nextId), startBalance, hash, name, email, password);
        r == reg.result && users == reg.users && nextId == if r.Granted? then old(nextId) + 1 else old(nextId)
    {
      var failure := RegistrationCheck(users, name, email, password);
      if failure.Some? {
        return Denied(failure.value);
      }
      RegisterKeepsEmailsUnique(users, nextId, startBalance, hash, name, email, password);
      var user := User(nextId, name.value, email.value, hash(password.value), startBalance);
      users := users + [user];
      nextId := nextId + 1;
      r := Granted(201, "Account created successfully", Public(user));
    }

    /** `POST /register`. */
    method RegisterUser(req: RegisterRequest) returns (r: AuthResult)
      requires Valid()
      modifies this
      ensures Valid()
      ensures var reg := Register(old(users), old(nextId), startBalance, hash, req.name, req.email, req.password);
        r == reg.result && users == reg.users
    {
      r := Create(req.name, req.email, req.password);
    }

    /** `POST /signup`: registration under `fullName || name`. */
    method Signup(req: SignupRequest) returns (r: AuthResult)
      requires Valid()
      modifies this
      ensures Valid()
      ensures var reg := Register(old(users), old(nextId), startBalance, hash, SignupName(req), req.email, req.password);
        r == reg.result && users == reg.users
    {
      var userName := if TruthyStr(req.fullName) then req.fullName else req.name;
      r := Create(userName, req.email, req.password);
    }
  }
}
