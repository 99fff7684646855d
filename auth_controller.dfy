/** The auth service (backend/controllers/authController.js): register and
    login validation, registration with email uniqueness, login with one
    answer for every failed credential check, and logout. */
module AuthController {
  import opened Common
  import opened UserModel

  /** Token signing and the password hash are foreign code; the model takes
      them as given functions. `sign(id)` is `generateToken(id)`;
      `hash(password)` is what the store keeps; `matches(candidate, hash)`
      is `user.comparePassword(candidate)`. */
  datatype Crypto = Crypto(
    sign: UserId -> string,
    hash: string -> string,
    matches: (string, string) -> bool)

  datatype RegisterBody = RegisterBody(name: Option<string>, email: Option<string>, password: Option<string>)
  datatype LoginBody = LoginBody(email: Option<string>, password: Option<string>)

  /** The public user view of register and login: no password. */
  datatype UserView = UserView(id: UserId, name: string, email: string, avatar: Option<string>, createdAt: int)

  datatype Session = Session(token: string, user: UserView)

  datatype Reply = Reply(code: int, success: bool, message: string, data: Option<Session>, errors: seq<FieldError>)

  function ValidationFailed(errors: seq<FieldError>): Reply
  {
    Reply(400, false, "Validation failed", None, errors)
  }

  /** The single answer for an unknown email and for a wrong password. */
  function InvalidCredentials(): Reply
  {
    Reply(401, false, "Invalid credentials", None, [])
  }

  function View(u: User): (v: UserView)
    ensures v.id == u.id && v.name == u.name && v.email == u.email
    ensures v.avatar == u.avatar && v.createdAt == u.createdAt
  {
    UserView(u.id, u.name, u.email, u.avatar, u.createdAt)
  }

  /** The email chain shared by register and login: trimmed, required and
      well-formed. */
  function EmailErrors(email: Option<string>, lib: Validators): seq<FieldError>
  {
    var e := Trim(TextOrEmpty(email));
    Check(e != "", "email", "Email is required")
    + Check(lib.isEmail(e), "email", "Please provide a valid email")
  }

  /** The email after the `trim` and `normalizeEmail` sanitizers. */
  function SanitizedEmail(email: Option<string>, lib: Validators): string
  {
    lib.normalizeEmail(Trim(TextOrEmpty(email)))
  }

  /** What `registerValidation` accepts. */
  predicate RegisterAcceptable(b: RegisterBody, lib: Validators)
  {
    && 2 <= |Trim(TextOrEmpty(b.name))| <= 50
    && Trim(TextOrEmpty(b.email)) != "" && lib.isEmail(Trim(TextOrEmpty(b.email)))
    && |TextOrEmpty(b.password)| >= 6
  }

  /** `registerValidation`: name, email, password in that order; every
      failing validator adds its error. */
  function RegisterValidation(b: RegisterBody, lib: Validators): (errors: seq<FieldError>)
    ensures errors == [] <==> RegisterAcceptable(b, lib)
  {
    var name := Trim(TextOrEmpty(b.name));
    var password := TextOrEmpty(b.password);
    Check(name != "", "name", "Name is required")
    + Check(2 <= |name| <= 50, "name", "Name must be between 2 and 50 characters")
    + EmailErrors(b.email, lib)
    + Check(password != "", "password", "Password is required")
    + Check(|password| >= 6, "password", "Password must be at least 6 characters")
  }

  /** A missing name, email or password each produce both of their chain's
      errors, since the chains do not stop at the first failure. */
  lemma EmptyRegisterErrors(lib: Validators)
    requires !lib.isEmail("")
    ensures RegisterValidation(RegisterBody(None, None, None), lib) ==
              [FieldError("name", "Name is required"),
               FieldError("name", "Name must be between 2 and 50 characters"),
               FieldError("email", "Email is required"),
               FieldError("email", "Please provide a valid email"),
               FieldError("password", "Password is required"),
               FieldError("password", "Password must be at least 6 characters")]
  {
    TrimNoop("");
  }

  /** What `loginValidation` accepts. */
  predicate LoginAcceptable(b: LoginBody, lib: Validators)
  {
    Trim(TextOrEmpty(b.email)) != "" && lib.isEmail(Trim(TextOrEmpty(b.email)))
    && TextOrEmpty(b.password) != ""
  }

  /** `loginValidation`: email then password. */
  function LoginValidation(b: LoginBody, lib: Validators): (errors: seq<FieldError>)
    ensures errors == [] <==> LoginAcceptable(b, lib)
  {
    EmailErrors(b.email, lib)
    + Check(TextOrEmpty(b.password) != "", "password", "Password is required")
  }

  /** The user `register` creates: trimmed name, normalised email, the
      password's hash, no avatar, both timestamps `now`. */
  function NewUser(id: UserId, b: RegisterBody, lib: Validators, crypto: Crypto, now: int): (u: User)
    ensures u.id == id && u.email == SanitizedEmail(b.email, lib)
    ensures u.passwordHash == crypto.hash(TextOrEmpty(b.password)) && u.avatar.None?
    ensures u.createdAt == now && u.updatedAt == now
  {
    User(id, Trim(TextOrEmpty(b.name)), SanitizedEmail(b.email, lib),
         crypto.hash(TextOrEmpty(b.password)), None, now, now)
  }

  /** `register`: a validation failure or a taken email leaves the table
      alone; otherwise exactly one user is added, and the reply carries a
      token for the new user's id and the public view of that user. */
  method Register(table: UserTable, b: RegisterBody, lib: Validators, crypto: Crypto, now: int)
    returns (r: Reply)
    requires table.Valid()
    modifies table
    ensures table.Valid()
    ensures RegisterValidation(b, lib) != [] ==>
              r == ValidationFailed(RegisterValidation(b, lib))
              && table.rows == old(table.rows) && table.nextId == old(table.nextId)
    ensures RegisterValidation(b, lib) == [] && FindByEmail(old(table.rows), SanitizedEmail(b.email, lib)).Some? ==>
              r == Reply(400, false, "User already exists with this email", None, [])
              && table.rows == old(table.rows) && table.nextId == old(table.nextId)
    ensures RegisterValidation(b, lib) == [] && FindByEmail(old(table.rows), SanitizedEmail(b.email, lib)).None? ==>
              var u := NewUser(old(table.nextId), b, lib, crypto, now);
              && table.rows == old(table.rows) + [u]
              && table.nextId == old(table.nextId) + 1
              && r == Reply(201, true, "User registered successfully", Some(Session(crypto.sign(u.id), View(u))), [])
  {
    var errors := RegisterValidation(b, lib);
    if errors != [] {
      return ValidationFailed(errors);
    }
    var email := SanitizedEmail(b.email, lib);
    var existing := FindByEmail(table.rows, email);
    if existing.Some? {
      return Reply(400, false, "User already exists with this email", None, []);
    }
    var u := NewUser(table.nextId, b, lib, crypto, now);
    table.Insert(u);
    r := Reply(201, true, "User registered successfully", Some(Session(crypto.sign(u.id), View(u))), []);
  }

  /** `login`: reads the table and never changes it. A validation failure
      answers 400; an unknown email and a wrong password both answer the
      same 401; otherwise the reply carries a token for the matched user's
      id and that user's public view. */
  method Login(table: UserTable, b: LoginBody, lib: Validators, crypto: Crypto) returns (r: Reply)
    requires table.Valid()
    ensures LoginValidation(b, lib) != [] ==> r == ValidationFailed(LoginValidation(b, lib))
    ensures LoginValidation(b, lib) == [] ==>
              var found := FindByEmail(table.rows, SanitizedEmail(b.email, lib));
              if found.None? || !crypto.matches(TextOrEmpty(b.password), table.rows[found.value].passwordHash)
              then r == InvalidCredentials()
              else r == Reply(200, true, "Login successful",
                              Some(Session(crypto.sign(table.rows[found.value].id), View(table.rows[found.value]))), [])
    ensures r.code == 200 ==>
              exists i :: 0 <= i < |table.rows| && table.rows[i].email == SanitizedEmail(b.email, lib)
                          && r.data == Some(Session(crypto.sign(table.rows[i].id), View(table.rows[i])))
  {
    var errors := LoginValidation(b, lib);
    if errors != [] {
      return ValidationFailed(errors);
    }
    var found := FindByEmail(table.rows, SanitizedEmail(b.email, lib));
    if found.None? {
      return InvalidCredentials();
    }
    var u := table.rows[found.value];
    if !crypto.matches(TextOrEmpty(b.password), u.passwordHash) {
      return InvalidCredentials();
    }
    r := Reply(200, true, "Login successful", Some(Session(crypto.sign(u.id), View(u))), []);
  }

  /** A user who registered can log in with the same email and password as
      long as the password check accepts the stored hash of that password. */
  lemma RegisteredUserCanLogIn(rows: seq<User>, nextId: UserId, b: RegisterBody, lib: Validators,
                               crypto: Crypto, now: int)
    requires UniqueEmails(rows)
    requires FindByEmail(rows, SanitizedEmail(b.email, lib)).None?
    requires crypto.matches(TextOrEmpty(b.password), crypto.hash(TextOrEmpty(b.password)))
    ensures var u := NewUser(nextId, b, lib, crypto, now);
            var found := FindByEmail(rows + [u], SanitizedEmail(b.email, lib));
            found == Some(|rows|)
            && crypto.matches(TextOrEmpty(b.password), (rows + [u])[found.value].passwordHash)
  {
    var u := NewUser(nextId, b, lib, crypto, now);
    FindByEmailExact(rows + [u], SanitizedEmail(b.email, lib), |rows|);
  }

  /** `logout`: tokens are discarded by the client, so the server answers
      200 "Logout successful" whatever the table holds. */
  function Logout(): (r: Reply)
    ensures r.code == 200 && r.success && r.data.None? && r.errors == []
  {
    Reply(200, true, "Logout successful", None, [])
  }
}
