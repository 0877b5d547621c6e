/**
 * The signup and login routes over the user collection. Password hashing is
 * a function the store is given; a password matches a stored hash when it
 * hashes to it.
 */
module AuthRoutes {
  import opened Wrappers

  /** A user document: the email and the hash of the password. */
  datatype UserDoc = UserDoc(email: string, passwordHash: string)

  datatype Body =
    | Message(message: string)
    | LoggedIn(message: string, email: string)
    | ServerError(error: string)

  datatype Response = Response(status: nat, body: Body)

  const InvalidCredentials := Response(400, Message("Invalid Credentials"))

  /** findOne by email: the first user with that email, if any. */
  function FindUser(users: seq<UserDoc>, email: string): (r: Option<UserDoc>)
    ensures r.Some? ==> r.value in users && r.value.email == email
    ensures r.None? ==> forall u :: u in users ==> u.email != email
  {
    if users == [] then None
    else if users[0].email == email then Some(users[0])
    else FindUser(users[1..], email)
  }

  /** No two users share an email. */
  predicate UniqueEmails(users: seq<UserDoc>) {
    forall i, j :: 0 <= i < j < |users| ==> users[i].email != users[j].email
  }

  /** When emails are unique, the user findOne returns is the only one with that email. */
  lemma {:induction false} FindUserUnique(users: seq<UserDoc>, u: UserDoc)
    requires UniqueEmails(users) && u in users
    ensures FindUser(users, u.email) == Some(u)
  {
    if users[0] != u {
      assert u in users[1..];
      assert users[0].email != u.email by {
        var k :| 0 < k < |users| && users[k] == u;
      }
      FindUserUnique(users[1..], u);
    }
  }

  /** The login response for an email and password against a user list. */
  function LoginReply(users: seq<UserDoc>, hash: string -> string, email: string, password: string): (resp: Response)
    ensures resp.status == 200 ==> exists u :: u in users && u.email == email && hash(password) == u.passwordHash
    ensures resp.status != 200 ==> resp == InvalidCredentials
    ensures resp.status == 200 ==> resp.body == LoggedIn("Login successful", email)
  {
    match FindUser(users, email)
    case None => InvalidCredentials
    case Some(user) =>
      if hash(password) != user.passwordHash then InvalidCredentials
      else Response(200, LoggedIn("Login successful", user.email))
  }

  /**
   * With one user per email, login succeeds exactly when some user has that
   * email and the password hashes to that user's stored hash.
   */
  lemma LoginSucceedsIff(users: seq<UserDoc>, hash: string -> string, email: string, password: string)
    requires UniqueEmails(users)
    ensures LoginReply(users, hash, email, password).status == 200
      <==> exists u :: u in users && u.email == email && hash(password) == u.passwordHash
  {
    if u :| u in users && u.email == email && hash(password) == u.passwordHash {
      FindUserUnique(users, u);
    }
  }

  /** An unknown email and a wrong password get the very same answer. */
  lemma FailuresIndistinguishable(
    users: seq<UserDoc>, hash: string -> string, unknown: string, known: UserDoc, wrong: string, anyPassword: string)
    requires UniqueEmails(users) && known in users && hash(wrong) != known.passwordHash
    requires forall u :: u in users ==> u.email != unknown
    ensures LoginReply(users, hash, unknown, anyPassword) == LoginReply(users, hash, known.email, wrong)
    ensures LoginReply(users, hash, unknown, anyPassword) == InvalidCredentials
  {
    FindUserUnique(users, known);
  }

  /** After signing up, logging in with the same email and password succeeds. */
  lemma {:induction false} SignupThenLogin(users: seq<UserDoc>, hash: string -> string, email: string, password: string)
    requires FindUser(users, email).None?
    ensures LoginReply(users + [UserDoc(email, hash(password))], hash, email, password)
      == Response(200, LoggedIn("Login successful", email))
  {
    FindUserAppend(users, UserDoc(email, hash(password)));
  }

  lemma {:induction false} FindUserAppend(users: seq<UserDoc>, u: UserDoc)
    requires FindUser(users, u.email).None?
    ensures FindUser(users + [u], u.email) == Some(u)
  {
    if users != [] {
      assert (users + [u])[1..] == users[1..] + [u];
      FindUserAppend(users[1..], u);
    }
  }

  /**
   * After signing up, a password whose hash differs from the signed-up
   * password's hash is refused. (bcrypt reads only a password's first 72
   * bytes, so two passwords that agree there share a hash and both log in.)
   */
  lemma OtherPasswordRefused(users: seq<UserDoc>, hash: string -> string, email: string, password: string, other: string)
    requires FindUser(users, email).None?
    requires hash(other) != hash(password)
    ensures LoginReply(users + [UserDoc(email, hash(password))], hash, email, other) == InvalidCredentials
  {
    FindUserAppend(users, UserDoc(email, hash(password)));
  }

  class UserStore {
    /** The user collection. */
    var users: seq<UserDoc>
    /** bcrypt, seen as a function from password to hash. */
    const hash: string -> string

    ghost predicate Valid()
      reads this
    {
      UniqueEmails(users)
    }

    constructor (hash: string -> string)
      ensures Valid() && users == [] && this.hash == hash
    {
      users := [];
      this.hash := hash;
    }

    /**
     * POST /signup: an email already present answers 400 "User already
     * exists" and changes nothing; otherwise exactly one user is added,
     * holding the hash of the password, and the answer is 201. A store
     * failure answers 500 and changes nothing.
     */
    method Signup(email: string, password: string, fault: bool) returns (resp: Response)
      requires Valid()
      modifies this
      ensures Valid()
      ensures fault ==> resp == Response(500, ServerError("Server Error")) && users == old(users)
      ensures !fault && FindUser(old(users), email).Some? ==>
        resp == Response(400, Message("User already exists")) && users == old(users)
      ensures !fault && FindUser(old(users), email).None? ==>
        && resp == Response(201, Message("User registered successfully"))
        && users == old(users) + [UserDoc(email, hash(password))]
    {
      if fault {
        resp := Response(500, ServerError("Server Error"));
        return;
      }
      var existing := FindUser(users, email);
      if existing.Some? {
        resp := Response(400, Message("User already exists"));
      } else {
        users := users + [UserDoc(email, hash(password))];
        resp := Response(201, Message("User registered successfully"));
      }
    }

    /**
     * POST /login: "Invalid Credentials" (400) for an unknown email and for a
     * wrong password alike; on success the answer carries only the email.
     * The store is never changed.
     */
    method Login(email: string, password: string, fault: bool) returns (resp: Response)
      requires Valid()
      ensures fault ==> resp == Response(500, ServerError("Server Error"))
      ensures !fault ==> resp == LoginReply(users, hash, email, password)
      ensures !fault && FindUser(users, email).None? ==> resp == InvalidCredentials
      ensures !fault && resp.status == 200 ==> resp.body == LoggedIn("Login successful", email)
      ensures !fault ==>
        (resp.status == 200 <==> exists u :: u in users && u.email == email && hash(password) == u.passwordHash)
    {
      if fault {
        resp := Response(500, ServerError("Server Error"));
      } else {
        LoginSucceedsIff(users, hash, email, password);
        resp := LoginReply(users, hash, email, password);
      }
    }
  }
}
