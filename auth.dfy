/**
 * Sign-in with e-mail and password, and the two callbacks that carry the
 * user's id from the sign-in into the token and from the token into the
 * session.
 */
module Auth {
  import opened Common
  import opened SignupRoute

  /** What the sign-in form submits; either field may be missing. */
  datatype Credentials = Credentials(email: Option<string>, password: Option<string>)

  /** The user record handed to the session on a successful sign-in. */
  datatype AuthorizedUser = AuthorizedUser(id: string, email: string, name: Option<string>, image: Option<string>)

  /** A string that is present and not empty. */
  predicate Filled(s: Option<string>) {
    s.Some? && s.value != []
  }

  /**
   * `authorize`: null unless both fields are filled, a user has that
   * address, the user has a stored password and `compare` accepts the
   * password against it; otherwise the user's id, address, name and image.
   */
  function Authorize(credentials: Option<Credentials>, users: map<string, User>,
                     compare: (string, string) -> bool): (r: Option<AuthorizedUser>)
    ensures r.Some? <==>
      && credentials.Some? && Filled(credentials.value.email) && Filled(credentials.value.password)
      && credentials.value.email.value in users
      && Filled(users[credentials.value.email.value].password)
      && compare(credentials.value.password.value, users[credentials.value.email.value].password.value)
    ensures r.Some? ==>
      var u := users[credentials.value.email.value];
      r.value == AuthorizedUser(u.id, u.email, u.name, u.image)
  {
    if credentials.None? || !Filled(credentials.value.email) || !Filled(credentials.value.password) then None
    else
      var email := credentials.value.email.value;
      if email !in users || !Filled(users[email].password) then None
      else
        var user := users[email];
        if !compare(credentials.value.password.value, user.password.value) then None
        else Some(AuthorizedUser(user.id, user.email, user.name, user.image))
  }

  /** In a table that keeps its invariant, the authorized user is the row with the submitted address. */
  lemma AuthorizeReturnsThatUser(credentials: Option<Credentials>, users: map<string, User>,
                                 compare: (string, string) -> bool)
    requires UniqueUsers(users)
    requires Authorize(credentials, users, compare).Some?
    ensures Authorize(credentials, users, compare).value.email == credentials.value.email.value
  {
  }

  /** An account created by a provider, with no stored password, can never sign in with a password. */
  lemma NoPasswordNoSignIn(email: string, password: string, users: map<string, User>,
                           compare: (string, string) -> bool)
    requires email in users && users[email].password.None?
    ensures Authorize(Some(Credentials(Some(email), Some(password))), users, compare) == None
  {
  }

  /** The signed token's claims that the model follows. */
  class Token {
    var id: Option<string>

    constructor (id: Option<string>)
      ensures this.id == id
    {
      this.id := id;
    }
  }

  class SessionUser {
    var id: Option<string>
    var name: Option<string>
    var email: Option<string>

    constructor (name: Option<string>, email: Option<string>)
      ensures this.id == None && this.name == name && this.email == email
    {
      this.id := None;
      this.name := name;
      this.email := email;
    }
  }

  class Session {
    var user: SessionUser?

    constructor (user: SessionUser?)
      ensures this.user == user
    {
      this.user := user;
    }
  }

  /** The `jwt` callback: a sign-in writes the user's id into the token; otherwise the token is kept. */
  method Jwt(token: Token, user: Option<AuthorizedUser>) returns (r: Token)
    modifies token
    ensures r == token
    ensures user.Some? ==> token.id == Some(user.value.id)
    ensures user.None? ==> token.id == old(token.id)
  {
    if user.Some? {
      token.id := Some(user.value.id);
    }
    r := token;
  }

  /**
   * The `session` callback: when there is a token and the session has a
   * user, the token's id is copied into the session's user; nothing else
   * changes.
   */
  method SessionCallback(session: Session, token: Token?) returns (r: Session)
    modifies session.user
    ensures r == session && session.user == old(session.user)
    ensures token != null && session.user != null ==> session.user.id == token.id
    ensures token == null && session.user != null ==> session.user.id == old(session.user.id)
    ensures session.user != null ==> session.user.name == old(session.user.name) && session.user.email == old(session.user.email)
  {
    if token != null && session.user != null {
      session.user.id := token.id;
    }
    r := session;
  }

  /**
   * A sign-in followed by a session read: the session's user ends up with
   * the id of the user `authorize` returned.
   */
  method SignInThenRead(token: Token, session: Session, user: AuthorizedUser) returns (r: Session)
    requires session.user != null
    modifies token, session.user
    ensures r == session && session.user != null
    ensures token.id == Some(user.id) && session.user.id == Some(user.id)
  {
    var t := Jwt(token, Some(user));
    r := SessionCallback(session, t);
  }
}
