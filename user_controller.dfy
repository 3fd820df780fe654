/** The account handlers: register a user, log in with email and password,
    and show the logged-in user. */
module UserController {
  import opened Http
  import opened Models

  const EmailExists: string := "Email already exists"
  const UserNotFound: string := "User not found"
  const UnableToLogin: string := "Unable to Login"

  /** The fields `register` takes from the request body. */
  const RegisterKeys: set<string> := {"name", "email", "password", "password2", "avatar"}

  /** The fields `login` takes from the request body. */
  const LoginKeys: set<string> := {"email", "password"}

  /** What `me` answers with. */
  datatype MeView = MeView(id: Id, name: string, email: string)

  /** The user a registration with normalised body `data` stores under `id`. */
  function NewUser(lib: Lib, id: Id, data: Body): (u: User)
    ensures u.id == id && u.name == OrEmpty(data, "name") && u.email == OrEmpty(data, "email")
    ensures u.avatar == lib.avatarOf(u.email) && u.password == lib.hash(OrEmpty(data, "password"))
  {
    var email := OrEmpty(data, "email");
    User(id, OrEmpty(data, "name"), email, lib.avatarOf(email), lib.hash(OrEmpty(data, "password")))
  }

  /** `register`: input the validator rejects is answered with its errors;
      an email already in the table adds 'Email already exists' to them;
      otherwise exactly one user is added. The table changes in no other
      case. */
  method Register(lib: Lib, db: Db, reqBody: Body, newId: Id) returns (r: Response<User>)
    requires db.Valid()
    requires newId !in db.users
    modifies db
    ensures db.Valid()
    ensures db.profiles == old(db.profiles) && db.posts == old(db.posts)
    ensures var c := lib.validateRegister(Pick(reqBody, RegisterKeys));
      && (!c.isValid ==> r == BadRequest(c.errors) && db.users == old(db.users))
      && (c.isValid && EmailTaken(old(db.users), OrEmpty(c.data, "email")) ==>
            r == BadRequest(c.errors["email" := EmailExists]) && db.users == old(db.users))
      && (c.isValid && !EmailTaken(old(db.users), OrEmpty(c.data, "email")) ==>
            var u := NewUser(lib, newId, c.data);
            r == Ok(u) && db.users == old(db.users)[newId := u])
  {
    var body := Pick(reqBody, RegisterKeys);
    var c := lib.validateRegister(body);
    if !c.isValid {
      return BadRequest(c.errors);
    }
    var email := OrEmpty(c.data, "email");
    if EmailTaken(db.users, email) {
      var errors := c.errors["email" := EmailExists];
      return BadRequest(errors);
    }
    var avatar := lib.avatarOf(email);
    var password := lib.hash(OrEmpty(c.data, "password"));
    var newUser := User(newId, OrEmpty(c.data, "name"), email, avatar, password);
    db.users := db.users[newId := newUser];
    r := Ok(newUser);
  }

  /** The message bcrypt's `compare` rejects with when the password is
      undefined. */
  const CompareUndefined: string := "Illegal arguments: undefined, string"

  /** The compare step of `login` for the stored user `u` that the lookup
      found: an absent password makes bcrypt reject, a failing comparison is
      'Unable to Login', and a passing one gives the token signed over the
      stored id, name and avatar. */
  function Attempt(lib: Lib, body: Body, u: User): (r: Response<string>)
    ensures "password" !in body ==> r == Failed(CompareUndefined)
    ensures "password" in body && !lib.compare(body["password"], u.password) ==> r == Failed(UnableToLogin)
    ensures "password" in body && lib.compare(body["password"], u.password) ==> r == Ok(lib.sign(u.id, u.name, u.avatar))
  {
    if "password" !in body then Failed(CompareUndefined)
    else if !lib.compare(body["password"], u.password) then Failed(UnableToLogin)
    else Ok(lib.sign(u.id, u.name, u.avatar))
  }

  /** `login`: a present email that no user has is 'User not found';
      otherwise the password is compared with the stored user's hash. An
      absent email makes the lookup `findOne({ email: undefined })`, which
      matches any stored document, so the comparison is made against some
      stored user, and only an empty table gives 'User not found'. Nothing is
      written. */
  method Login(lib: Lib, db: Db, reqBody: Body) returns (r: Response<string>)
    requires db.Valid()
    ensures var body := Pick(reqBody, LoginKeys);
      && ("email" in body && !EmailTaken(db.users, body["email"]) ==> r == Failed(UserNotFound))
      && ("email" in body ==>
            forall id :: id in db.users && db.users[id].email == body["email"] ==> r == Attempt(lib, body, db.users[id]))
      && ("email" !in body && db.users == map[] ==> r == Failed(UserNotFound))
      && ("email" !in body && db.users != map[] ==>
            exists id :: id in db.users && r == Attempt(lib, body, db.users[id]))
  {
    var body := Pick(reqBody, LoginKeys);
    var id: Id;
    if "email" in body {
      if !EmailTaken(db.users, body["email"]) {
        return Failed(UserNotFound);
      }
      id :| id in db.users && db.users[id].email == body["email"];
    } else {
      // the filter `{ email: undefined }` matches any document
      if db.users == map[] {
        return Failed(UserNotFound);
      }
      id :| id in db.users;
    }
    var userExists := db.users[id];
    if "password" !in body {
      return Failed(CompareUndefined);
    }
    var isMatch := lib.compare(body["password"], userExists.password);
    if !isMatch {
      return Failed(UnableToLogin);
    }
    r := Ok(lib.sign(userExists.id, userExists.name, userExists.avatar));
  }

  /** `me`: the caller's id, name and email, and neither avatar nor password. */
  function Me(u: User): (v: MeView)
    ensures v.id == u.id && v.name == u.name && v.email == u.email
  {
    MeView(u.id, u.name, u.email)
  }

  /** Two users get the same `me` reply exactly when they agree on id, name
      and email: the avatar and the password hash never reach the reply. */
  lemma MeHidesSecrets(u: User, w: User)
    ensures Me(u) == Me(w) <==> (u.id == w.id && u.name == w.name && u.email == w.email)
    ensures Me(u) == Me(u.(avatar := w.avatar, password := w.password))
  {
  }

  /** A fresh registration followed by a login with the same email and
      password issues the token of the new user, provided the hash function
      agrees with the comparison. */
  method RegisterThenLogin(lib: Lib, db: Db, reqBody: Body, newId: Id, loginBody: Body)
    returns (registered: Response<User>, token: Response<string>)
    requires db.Valid()
    requires newId !in db.users
    requires var c := lib.validateRegister(Pick(reqBody, RegisterKeys));
      && c.isValid
      && !EmailTaken(db.users, OrEmpty(c.data, "email"))
      && loginBody == map["email" := OrEmpty(c.data, "email"), "password" := OrEmpty(c.data, "password")]
      && lib.compare(OrEmpty(c.data, "password"), lib.hash(OrEmpty(c.data, "password")))
    modifies db
    ensures db.Valid()
    ensures var c := lib.validateRegister(Pick(reqBody, RegisterKeys));
      && registered == Ok(NewUser(lib, newId, c.data))
      && token == Ok(lib.sign(newId, OrEmpty(c.data, "name"), lib.avatarOf(OrEmpty(c.data, "email"))))
  {
    var c := lib.validateRegister(Pick(reqBody, RegisterKeys));
    registered := Register(lib, db, reqBody, newId);
    var u := NewUser(lib, newId, c.data);
    assert db.users[newId] == u;
    assert Pick(loginBody, LoginKeys) == loginBody;
    token := Login(lib, db, loginBody);
  }
}
