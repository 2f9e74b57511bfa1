/** The account rules of the `signup` and `login` routes (backend/src/app.py)
    over an in-memory collection of user records standing for the
    `userIdentification` collection. */
module Users {
  import opened Wrappers
  import opened Strings

  /** A stored user. `handle` is absent on records not written by `signup`. */
  datatype UserRecord = UserRecord(email: string, password: string, username: string, handle: Option<string>)

  /** The JSON reply of a route: the success body, or an error status and message. */
  datatype Reply = Success(username: string, handle: string) | Failure(status: int, message: string)

  /** `where("email", "==", email).get()` finds a record. */
  predicate HasEmail(users: seq<UserRecord>, email: string) {
    exists i :: 0 <= i < |users| && users[i].email == email
  }

  /** Every email belongs to one record at most. */
  predicate UniqueEmails(users: seq<UserRecord>) {
    forall i, j :: 0 <= i < j < |users| ==> users[i].email != users[j].email
  }

  /** The first record with both the email and the password, as `results[0]`
      of the two-condition query. */
  function FirstMatch(users: seq<UserRecord>, email: string, password: string): (r: Option<nat>)
    ensures r.Some? ==> r.value < |users| && users[r.value].email == email && users[r.value].password == password
    ensures r.Some? ==> forall j :: 0 <= j < r.value ==> !(users[j].email == email && users[j].password == password)
    ensures r.None? ==> forall j :: 0 <= j < |users| ==> !(users[j].email == email && users[j].password == password)
  {
    if users == [] then None
    else if users[0].email == email && users[0].password == password then Some(0)
    else match FirstMatch(users[1..], email, password)
      case None => None
      case Some(k) => Some(k + 1)
  }

  /** The handle `signup` gives: the username, a dash and the first eight
      hex digits of a fresh UUID, passed in as `hex`. */
  function NewHandle(username: string, hex: string): string {
    username + "-" + Take(hex, 8)
  }

  /** `signup`: the store afterwards and the reply. */
  function SignupOf(users: seq<UserRecord>, email: Option<string>, password: Option<string>,
                    username: Option<string>, hex: string): (seq<UserRecord>, Reply) {
    if !Truthy(email) || !Truthy(password) || !Truthy(username) then
      (users, Failure(400, "Missing required fields"))
    else if HasEmail(users, email.value) then
      (users, Failure(409, "There is already an account associated with this email!"))
    else
      var handle := NewHandle(username.value, hex);
      (users + [UserRecord(email.value, password.value, username.value, Some(handle))],
       Success(username.value, handle))
  }

  /** `login`: the reply; the store is only read. */
  function LoginOf(users: seq<UserRecord>, email: Option<string>, password: Option<string>): Reply {
    if !Truthy(email) || !Truthy(password) then Failure(400, "Missing email or password")
    else match FirstMatch(users, email.value, password.value)
      case None => Failure(401, "Invalid email or password")
      case Some(i) => Success(users[i].username, users[i].handle.GetOr(users[i].username))
  }

  /** The user collection. */
  class UserStore {
    var users: seq<UserRecord>

    constructor()
      ensures users == []
    {
      users := [];
    }

    /** `POST /api/signup`. */
    method Signup(email: Option<string>, password: Option<string>, username: Option<string>, hex: string)
      returns (reply: Reply)
      modifies this
      ensures (users, reply) == SignupOf(old(users), email, password, username, hex)
    {
      if !Truthy(email) || !Truthy(password) || !Truthy(username) {
        return Failure(400, "Missing required fields");
      }
      if HasEmail(users, email.value) {
        return Failure(409, "There is already an account associated with this email!");
      }
      var handle := username.value + "-" + Take(hex, 8);
      users := users + [UserRecord(email.value, password.value, username.value, Some(handle))];
      reply := Success(username.value, handle);
    }

    /** `POST /api/login`. */
    method Login(email: Option<string>, password: Option<string>) returns (reply: Reply)
      ensures reply == LoginOf(users, email, password)
    {
      if !Truthy(email) || !Truthy(password) {
        return Failure(400, "Missing email or password");
      }
      var found := FirstMatch(users, email.value, password.value);
      if found.None? {
        return Failure(401, "Invalid email or password");
      }
      var user := users[found.value];
      reply := Success(user.username, user.handle.GetOr(user.username));
    }
  }

  // ---------------------------------------------------------------------
  // Properties
  // ---------------------------------------------------------------------

  /** A signup with a missing or empty field, or with a registered email,
      fails with 400 or 409 and stores nothing; any other stores exactly one
      record, at the end, and echoes its username and handle. */
  lemma SignupOutcomes(users: seq<UserRecord>, email: Option<string>, password: Option<string>,
                       username: Option<string>, hex: string)
    ensures var (after, reply) := SignupOf(users, email, password, username, hex);
      && (!Truthy(email) || !Truthy(password) || !Truthy(username) ==> after == users && reply.Failure? && reply.status == 400)
      && (Truthy(email) && Truthy(password) && Truthy(username) && HasEmail(users, email.value)
          ==> after == users && reply.Failure? && reply.status == 409)
      && (reply.Success? <==> Truthy(email) && Truthy(password) && Truthy(username) && !HasEmail(users, email.value))
      && (reply.Success? ==>
            && |after| == |users| + 1 && after[..|users|] == users
            && after[|users|].email == email.value && after[|users|].password == password.value
            && reply.username == username.value == after[|users|].username
            && after[|users|].handle == Some(reply.handle))
  {
    var (after, reply) := SignupOf(users, email, password, username, hex);
    if reply.Success? {
      assert after[..|users|] == users;
    }
  }

  /** The handle is the username, a dash and eight characters of the UUID. */
  lemma NewHandleShape(username: string, hex: string)
    requires |hex| >= 8
    ensures var h := NewHandle(username, hex);
      |h| == |username| + 9 && h[..|username|] == username && h[|username|] == '-'
      && h[|username| + 1..] == hex[..8]
  {
  }

  /** Signup keeps every email to one record. */
  lemma SignupKeepsEmailsUnique(users: seq<UserRecord>, email: Option<string>, password: Option<string>,
                                username: Option<string>, hex: string)
    requires UniqueEmails(users)
    ensures UniqueEmails(SignupOf(users, email, password, username, hex).0)
  {
    var (after, reply) := SignupOf(users, email, password, username, hex);
    if reply.Success? {
      forall i, j | 0 <= i < j < |after|
        ensures after[i].email != after[j].email
      {
        if j == |users| {
          assert after[i] == users[i];
        } else {
          assert after[i] == users[i] && after[j] == users[j];
        }
      }
    }
  }

  /** `login` fails with 400 on a missing field and with 401 exactly when no
      record has both the email and the password; otherwise it replies with
      the first such record's username and its handle, or its username when
      the record has no handle. */
  lemma LoginOutcomes(users: seq<UserRecord>, email: Option<string>, password: Option<string>)
    ensures var reply := LoginOf(users, email, password);
      && (!Truthy(email) || !Truthy(password) ==> reply == Failure(400, "Missing email or password"))
      && (Truthy(email) && Truthy(password) ==>
            (reply.Failure? <==> forall j :: 0 <= j < |users| ==> !(users[j].email == email.value && users[j].password == password.value)))
      && (reply.Success? ==> exists i :: (0 <= i < |users|
            && users[i].email == email.value && users[i].password == password.value
            && (forall j :: 0 <= j < i ==> !(users[j].email == email.value && users[j].password == password.value))
            && reply.username == users[i].username
            && reply.handle == (if users[i].handle.Some? then users[i].handle.value else users[i].username)))
  {
    if Truthy(email) && Truthy(password) {
      var found := FirstMatch(users, email.value, password.value);
      if found.Some? {
        var i := found.value;
        assert users[i].email == email.value && users[i].password == password.value;
      }
    }
  }

  /** After a successful signup, logging in with the same email and password
      answers with the username and handle the signup replied with. */
  lemma SignupThenLogin(users: seq<UserRecord>, email: Option<string>, password: Option<string>,
                        username: Option<string>, hex: string)
    requires SignupOf(users, email, password, username, hex).1.Success?
    ensures var (after, reply) := SignupOf(users, email, password, username, hex);
      LoginOf(after, email, password) == reply
  {
    var (after, reply) := SignupOf(users, email, password, username, hex);
    var n := |users|;
    assert after[n].email == email.value && after[n].password == password.value;
    assert !HasEmail(users, email.value);
    assert forall j :: 0 <= j < n ==> after[j] == users[j];
  }
}
