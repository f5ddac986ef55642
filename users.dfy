/**
 * The User collection and the routes POST /signup, POST /login and
 * GET /user. Accounts are stored as given: nothing makes the mobile number
 * unique and the password is compared as plain text.
 */
module Users {
  import opened Wrappers

  /** A User document. */
  datatype User = User(fullName: string, dob: string, gender: string, address: string, mobile: string, password: string)

  /** A `User.findOne` filter: always the mobile number, and the password for /login. */
  datatype UserQuery = UserQuery(mobile: string, password: Option<string>)

  predicate Matches(u: User, q: UserQuery)
  {
    u.mobile == q.mobile && (q.password.Some? ==> u.password == q.password.value)
  }

  /** `User.findOne(query)`: the position of the first stored user the filter matches. */
  function FindOne(users: seq<User>, q: UserQuery): (r: Option<nat>)
    ensures r.Some? ==> r.value < |users| && Matches(users[r.value], q)
    ensures r.Some? ==> forall j :: 0 <= j < r.value ==> !Matches(users[j], q)
    ensures r.None? <==> forall j :: 0 <= j < |users| ==> !Matches(users[j], q)
    decreases |users|
  {
    if users == [] then None
    else if Matches(users[0], q) then Some(0)
    else
      match FindOne(users[1..], q)
      case None => None
      case Some(i) => Some(i + 1)
  }

  /** Users stored later never change which user a lookup that already succeeds returns. */
  lemma {:induction false} LaterUsersDoNotChangeFindOne(users: seq<User>, more: seq<User>, q: UserQuery)
    requires FindOne(users, q).Some?
    ensures FindOne(users + more, q) == FindOne(users, q)
    decreases |users|
  {
    if !Matches(users[0], q) {
      assert (users + more)[1..] == users[1..] + more;
      LaterUsersDoNotChangeFindOne(users[1..], more, q);
    }
  }

  datatype SignupReply = Registered | SignupNoReply

  datatype LoginReply = LoggedIn | InvalidCredentials | LoginNoReply
  {
    /** The `success` field of the reply, when there is one. */
    function Success(): bool
    {
      this == LoggedIn
    }
  }

  datatype UserReply = UserFound(user: User) | UserNotFound | UserServerError
  {
    function Status(): nat
    {
      match this
      case UserFound(_) => 200
      case UserNotFound => 404
      case UserServerError => 500
    }
  }

  /** The User collection. */
  class UserStore {
    var users: seq<User>

    constructor ()
      ensures users == []
    {
      users := [];
    }

    /**
     * POST /signup stores the body as a new user, with no check for an
     * existing mobile number. The route has no error handler, so a failed
     * write leaves the request without a reply.
     */
    method Signup(user: User, storageFails: bool) returns (reply: SignupReply)
      modifies this
      ensures reply == if storageFails then SignupNoReply else Registered
      ensures users == if storageFails then old(users) else old(users) + [user]
      ensures !storageFails ==> Login(user.mobile, user.password, false) == LoggedIn
    {
      if storageFails {
        return SignupNoReply;
      }
      users := users + [user];
      reply := Registered;
      assert users[|users| - 1] == user;
    }

    /**
     * POST /login: success exactly when some stored user has this mobile
     * number and this password. A failed lookup is not caught, so there is
     * no reply.
     */
    function Login(mobile: string, password: string, storageFails: bool): (r: LoginReply)
      reads this
      ensures r == LoginNoReply <==> storageFails
      ensures r == LoggedIn <==>
                !storageFails && exists i :: 0 <= i < |users| && users[i].mobile == mobile && users[i].password == password
    {
      if storageFails then LoginNoReply
      else if FindOne(users, UserQuery(mobile, Some(password))).Some? then LoggedIn
      else InvalidCredentials
    }

    /** GET /user: the first stored user with this mobile number, else 404; a failed lookup is a 500. */
    function GetUser(mobile: string, storageFails: bool): (r: UserReply)
      reads this
      ensures r == UserServerError <==> storageFails
      ensures r == UserNotFound <==> !storageFails && forall i :: 0 <= i < |users| ==> users[i].mobile != mobile
      ensures r.UserFound? ==>
                exists i :: 0 <= i < |users| && users[i] == r.user && r.user.mobile == mobile
                            && forall j :: 0 <= j < i ==> users[j].mobile != mobile
    {
      if storageFails then UserServerError
      else
        match FindOne(users, UserQuery(mobile, None))
        case None => UserNotFound
        case Some(i) => UserFound(users[i])
    }
  }
}
