/**
 * The user request handlers: signup, login, logout, the current-user check
 * and the subscription change. Each runs as one atomic step against a
 * UserCollection. A Joi schema's verdict on the body is the `schemaError`
 * argument; password hashing and checking and the token clock are arguments
 * too, since they live outside this code.
 */
module UsersController {
  import opened Wrappers
  import opened Http
  import opened Identity
  import opened UserService

  /** The `{email, password}` body of signup and login. */
  datatype Credentials = Credentials(email: string, password: string)

  /** The public view of a user: `{email, subscription}`. */
  datatype Profile = Profile(email: string, subscription: string)

  /** The login reply: the token and the user's public view. */
  datatype Session = Session(token: Jwt, user: Profile)

  /** `req.user` as the authentication middleware leaves it. */
  datatype Principal = Principal(id: UserId, email: string, subscription: string)

  const EmailInUse := "Email in use"
  const WrongCredentials := "Wrong credentials"
  const LoggedOut := "Logged out"
  // What the runtime reports when a handler assigns a field of a user it did not find.
  const NullUser := "Cannot set properties of null"

  /**
   * `add` (signup): an email already in use is a 409 whatever the body, a
   * body the schema rejects is a 400, and either way no user is created;
   * otherwise exactly one user with that email and no session is added.
   */
  method Signup(db: UserCollection, body: Credentials, schemaError: Option<string>, hashPassword: string -> string)
    returns (reply: Reply<Profile>)
    requires db.Valid()
    modifies db
    ensures db.Valid()
    ensures FindByEmail(old(db.users), body.email).Some? ==>
      reply == Err(409, EmailInUse) && db.users == old(db.users) && db.nextId == old(db.nextId)
    ensures FindByEmail(old(db.users), body.email).None? && schemaError.Some? ==>
      reply == Err(400, schemaError.value) && db.users == old(db.users) && db.nextId == old(db.nextId)
    ensures FindByEmail(old(db.users), body.email).None? && schemaError.None? ==>
      reply == Ok(201, Profile(body.email, DefaultSubscription)) &&
      db.users == old(db.users) + [User(old(db.nextId), body.email, hashPassword(body.password), DefaultSubscription, None)]
  {
    if FindByEmail(db.users, body.email).Some? {
      return Err(409, EmailInUse);
    }
    if schemaError.Some? {
      return Err(400, schemaError.value);
    }
    var user := db.Create(body.email, hashPassword(body.password));
    reply := Ok(201, Profile(user.email, DefaultSubscription));
  }

  /**
   * `get` (login), answering an unknown email like a wrong password: a body
   * the schema rejects, an unknown email or a wrong password is a 400 and
   * leaves every token as it was; otherwise a token with payload `{id, email}`
   * of that user replaces whatever the user's slot held, and the same token
   * is returned. The reply reports the subscription as "starter".
   */
  method Login(db: UserCollection, body: Credentials, schemaError: Option<string>,
               validatePassword: (string, string) -> bool, issuedAt: nat)
    returns (reply: Reply<Session>)
    requires db.Valid()
    modifies db
    ensures db.Valid() && db.nextId == old(db.nextId)
    ensures schemaError.Some? ==> reply == Err(400, schemaError.value) && db.users == old(db.users)
    ensures schemaError.None? && FindByEmail(old(db.users), body.email).None? ==>
      reply == Err(400, WrongCredentials) && db.users == old(db.users)
    ensures schemaError.None? && FindByEmail(old(db.users), body.email).Some? ==>
      var u := old(db.users)[FindByEmail(old(db.users), body.email).value];
      if validatePassword(u.passwordHash, body.password) then
        var t := Jwt(u.id, u.email, issuedAt);
        reply == Ok(200, Session(t, Profile(u.email, DefaultSubscription))) &&
        db.users == WithToken(old(db.users), u.id, Some(t))
      else
        reply == Err(400, WrongCredentials) && db.users == old(db.users)
  {
    if schemaError.Some? {
      return Err(400, schemaError.value);
    }
    var found := FindByEmail(db.users, body.email);
    if found.None? {
      return Err(400, WrongCredentials);
    }
    var i := found.value;
    var u := db.users[i];
    if !validatePassword(u.passwordHash, body.password) {
      return Err(400, WrongCredentials);
    }
    var token := Jwt(u.id, u.email, issuedAt);
    db.SetToken(i, Some(token));
    reply := Ok(200, Session(token, Profile(u.email, DefaultSubscription)));
  }

  /**
   * The reply of `get` (login) as written: the password is checked on the
   * looked-up user before the null check, so an unknown email throws and the
   * request is never answered.
   */
  function LoginReplyAsWritten(us: seq<User>, body: Credentials, schemaError: Option<string>,
                               validatePassword: (string, string) -> bool, issuedAt: nat): (r: Reply<Session>)
    ensures schemaError.Some? ==> r == Err(400, schemaError.value)
    ensures schemaError.None? && FindByEmail(us, body.email).None? ==> r == NoResponse
    ensures r.Ok? ==> r.data.token.email == body.email
  {
    if schemaError.Some? then Err(400, schemaError.value)
    else match FindByEmail(us, body.email)
      case None => NoResponse
      case Some(i) =>
        var u := us[i];
        if !validatePassword(u.passwordHash, body.password) then Err(400, WrongCredentials)
        else Ok(200, Session(Jwt(u.id, u.email, issuedAt), Profile(u.email, DefaultSubscription)))
  }

  /** As written, a login with an email nobody registered gets no answer at all. */
  lemma LoginAsWrittenLeavesUnknownEmailUnanswered(validatePassword: (string, string) -> bool)
    ensures LoginReplyAsWritten([], Credentials("a@x.com", "p1"), None, validatePassword, 0) == NoResponse
  {
    assert FindByEmail([], "a@x.com") == None;
  }

  /** `logout`: the caller's token slot is emptied, whatever it held. */
  method Logout(db: UserCollection, id: UserId) returns (reply: Reply<string>)
    requires db.Valid()
    modifies db
    ensures db.Valid() && db.nextId == old(db.nextId)
    ensures FindById(old(db.users), id).None? ==> reply == Err(500, NullUser) && db.users == old(db.users)
    ensures FindById(old(db.users), id).Some? ==>
      reply == Ok(204, LoggedOut) && db.users == WithToken(old(db.users), id, None)
    ensures forall u :: u in db.users && u.id == id ==> u.token.None?
  {
    var found := FindById(db.users, id);
    if found.None? {
      return Err(500, NullUser);
    }
    WithTokenKeepsOthers(db.users, id, None);
    db.SetToken(found.value, None);
    reply := Ok(204, LoggedOut);
  }

  /**
   * `check` (current user): the caller's `{email, subscription}` as the
   * request context holds it, when a user with that id exists; otherwise the
   * handler ends without answering.
   */
  function Check(us: seq<User>, who: Principal): (r: Reply<Profile>)
    ensures r.Ok? <==> exists j :: 0 <= j < |us| && us[j].id == who.id
    ensures r.Ok? ==> r == Ok(200, Profile(who.email, who.subscription))
    ensures !r.Ok? ==> r == NoResponse
  {
    match FindById(us, who.id)
    case Some(_) => Ok(200, Profile(who.email, who.subscription))
    case None => NoResponse
  }

  /**
   * `subs`: a body the schema rejects is a 400 and changes nothing;
   * otherwise only the caller's subscription changes, to the requested one.
   */
  method Subs(db: UserCollection, id: UserId, subscription: string, schemaError: Option<string>)
    returns (reply: Reply<string>)
    requires db.Valid()
    modifies db
    ensures db.Valid() && db.nextId == old(db.nextId)
    ensures schemaError.Some? ==> reply == Err(400, schemaError.value) && db.users == old(db.users)
    ensures schemaError.None? && FindById(old(db.users), id).None? ==>
      reply == Err(500, NullUser) && db.users == old(db.users)
    ensures schemaError.None? && FindById(old(db.users), id).Some? ==>
      reply == Ok(201, "Subscription has changed for " + subscription) &&
      db.users == WithSubscription(old(db.users), id, subscription)
  {
    if schemaError.Some? {
      return Err(400, schemaError.value);
    }
    var found := FindById(db.users, id);
    if found.None? {
      return Err(500, NullUser);
    }
    db.SetSubscription(found.value, subscription);
    reply := Ok(201, "Subscription has changed for " + subscription);
  }

  /**
   * Session lifecycle over the handlers' state changes: after a login the
   * slot holds exactly the token just issued, a later login replaces it,
   * and a logout leaves the slot empty whatever came before.
   */
  lemma TokenSlotLifecycle(us: seq<User>, id: UserId, t1: Jwt, t2: Jwt)
    requires UserIdsDistinct(us)
    ensures WithToken(WithToken(us, id, Some(t1)), id, Some(t2)) == WithToken(us, id, Some(t2))
    ensures WithToken(WithToken(us, id, Some(t1)), id, None) == WithToken(us, id, None)
    ensures forall j :: 0 <= j < |us| && us[j].id == id ==> WithToken(us, id, Some(t2))[j].token == Some(t2)
  {
    LastTokenWins(us, id, Some(t1), Some(t2));
    LastTokenWins(us, id, Some(t1), None);
    WithTokenKeepsOthers(us, id, Some(t2));
  }
}
