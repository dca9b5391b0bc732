/**
 * Account creation: `POST /api/auth/signup` validates the body, refuses an
 * e-mail address that is already registered, stores the new user with a
 * hashed password and answers with the user record without the password.
 */
module SignupRoute {
  import opened Common
  import opened ApiResponse
  import opened Validations
  import opened ApiHandler

  /** A stored user. `password` is the stored hash; accounts created through a provider have none. */
  datatype User = User(
    id: string,
    name: Option<string>,
    email: string,
    password: Option<string>,
    image: Option<string>,
    createdAt: int,
    updatedAt: int)

  /** The user record the route answers with: every column but the password. */
  datatype PublicUser = PublicUser(id: string, name: Option<string>, email: string, createdAt: int, updatedAt: int)

  function WithoutPassword(u: User): (p: PublicUser)
    ensures p.id == u.id && p.name == u.name && p.email == u.email
    ensures p.createdAt == u.createdAt && p.updatedAt == u.updatedAt
  {
    PublicUser(u.id, u.name, u.email, u.createdAt, u.updatedAt)
  }

  /** The cost factor passed to the hash function. */
  const SaltRounds: nat := 10

  const UserCreatedMessage: string := "ユーザーが正常に作成されました"
  const EmailTakenMessage: string := "このメールアドレスは既に登録されています"
  const SignupFailedMessage: string := "ユーザー登録中にエラーが発生しました"

  /**
   * The table invariant: rows are indexed by their e-mail address (the
   * unique column), and no two rows share an id.
   */
  predicate UniqueUsers(users: map<string, User>) {
    && (forall e :: e in users ==> users[e].email == e)
    && (forall e1, e2 :: e1 in users && e2 in users && users[e1].id == users[e2].id ==> e1 == e2)
  }

  /** Under the invariant no two different rows have the same e-mail address. */
  lemma UniqueEmails(users: map<string, User>, e1: string, e2: string)
    requires UniqueUsers(users)
    requires e1 in users && e2 in users && e1 != e2
    ensures users[e1].email != users[e2].email
  {
  }

  /** The user table, indexed by e-mail address. */
  class UserTable {
    var users: map<string, User>

    predicate Valid()
      reads this
    {
      UniqueUsers(users)
    }

    constructor ()
      ensures Valid() && users == map[]
    {
      users := map[];
    }

    /** Some row already uses the id `id`. */
    predicate IdTaken(id: string)
      reads this
    {
      exists e :: e in users && users[e].id == id
    }

    /**
     * `POST /api/auth/signup`. `hash` is the password hash function and
     * `newId`, `now` are the id and time the store assigns; an id that is
     * already taken fails like any other store error.
     */
    method Signup(body: RequestBody<UserInput>, isEmail: string -> bool, hash: (string, nat) -> string,
                  newId: string, now: int) returns (r: Response<PublicUser>)
      requires Valid()
      modifies this
      ensures Valid()
      ensures r.status != 201 ==> users == old(users)
      ensures body.Malformed? ==> r == ServerErrorResponse(SignupFailedMessage)
      ensures body.Json? && UserIssues(body.value, isEmail) != [] ==>
                r.status == 400 && r.body.message == ValidationMessage &&
                r.body.errors == Some(FormatIssues(UserIssues(body.value, isEmail)))
      ensures body.Json? && UserIssues(body.value, isEmail) == [] && body.value.email in old(users) ==>
                r == ErrorResponse(EmailTakenMessage, 409)
      ensures body.Json? && UserIssues(body.value, isEmail) == [] && body.value.email !in old(users) &&
              old(IdTaken(newId)) ==>
                r == ServerErrorResponse(SignupFailedMessage)
      ensures body.Json? && UserIssues(body.value, isEmail) == [] && body.value.email !in old(users) &&
              !old(IdTaken(newId)) ==>
                var u := body.value;
                var created := User(newId, Some(u.name), u.email, Some(hash(u.password, SaltRounds)), None, now, now);
                users == old(users)[u.email := created] &&
                r == SuccessResponse(WithoutPassword(created), UserCreatedMessage, 201)
    {
      var outcome := ValidateRequest(body, u => UserIssues(u, isEmail));
      match outcome
      case Threw(ResponseThrown(response)) =>
        r := AsResponse(response);
      case Threw(_) =>
        r := ServerErrorResponse(SignupFailedMessage);
      case Returned(u) =>
        if u.email in users {
          r := ErrorResponse(EmailTakenMessage, 409);
          return;
        }
        var hashed := hash(u.password, SaltRounds);
        if IdTaken(newId) {
          r := ServerErrorResponse(SignupFailedMessage);
          return;
        }
        var created := User(newId, Some(u.name), u.email, Some(hashed), None, now, now);
        users := users[u.email := created];
        r := SuccessResponse(WithoutPassword(created), UserCreatedMessage, 201);
    }
  }

  /** Inserting a row under a new e-mail address and a new id keeps the invariant. */
  lemma InsertKeepsUnique(users: map<string, User>, u: User)
    requires UniqueUsers(users)
    requires u.email !in users
    requires forall e :: e in users ==> users[e].id != u.id
    ensures UniqueUsers(users[u.email := u])
    ensures |users[u.email := u].Keys| == |users.Keys| + 1
  {
  }

  /** The registered addresses after a signup are the old ones plus the new one. */
  lemma SignupAddsOneEmail(users: map<string, User>, u: User)
    requires u.email !in users
    ensures users[u.email := u].Keys == users.Keys + {u.email}
  {
  }
}
