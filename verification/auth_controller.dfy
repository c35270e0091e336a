/** Login, logout and the session checks. A login is validated, the active
  * user with that login name is looked up, the trimmed passwords are
  * compared, and the session's `user` entry records who is signed in. */
module AuthController {
  import opened Values
  import opened Query
  import opened Validation
  import Text

  /** The server-side session: named entries and the CSRF token. */
  class Session {
    var entries: map<string, Row>
    var csrfToken: string

    constructor (token: string)
      ensures entries == map[] && csrfToken == token
    {
      entries := map[];
      csrfToken := token;
    }

    /** `session()->put(k, v)`. */
    method Put(k: string, v: Row)
      modifies this
      ensures entries == old(entries)[k := v] && csrfToken == old(csrfToken)
    {
      entries := entries[k := v];
    }

    /** `session()->forget(k)`. */
    method Forget(k: string)
      modifies this
      ensures entries == old(entries) - {k} && csrfToken == old(csrfToken)
    {
      entries := entries - {k};
    }

    /** `session()->invalidate()`: every entry is dropped. */
    method Invalidate()
      modifies this
      ensures entries == map[] && csrfToken == old(csrfToken)
    {
      entries := map[];
    }

    /** `session()->regenerateToken()`, the new token supplied by the caller. */
    method RegenerateToken(newToken: string)
      modifies this
      ensures entries == old(entries) && csrfToken == newToken
    {
      csrfToken := newToken;
    }
  }

  /** Both credentials are required strings of at least three characters. */
  const LoginRules: seq<Rule> := [
    Rule("username", Required, false, Str(3, None)),
    Rule("password", Required, false, Str(3, None))]

  /** The row `where('USER_NAME_NEW', $username)->where('USER_ACTIVE', 1)` selects. */
  predicate IsActiveNamed(row: Row, username: Value)
  {
    SqlEquals(Get(row, "USER_NAME_NEW"), username) && SqlEquals(Get(row, "USER_ACTIVE"), VInt(1))
  }

  /** `->first()`: the first such user, in table order. */
  function FindActive(users: seq<Row>, username: Value): (r: Option<nat>)
    ensures r.Some? ==> r.value < |users| && IsActiveNamed(users[r.value], username)
    ensures r.Some? ==> forall i :: 0 <= i < r.value ==> !IsActiveNamed(users[i], username)
    ensures r.None? ==> forall i :: 0 <= i < |users| ==> !IsActiveNamed(users[i], username)
  {
    if users == [] then None
    else if IsActiveNamed(users[0], username) then Some(0)
    else
      match FindActive(users[1..], username)
      case None => None
      case Some(j) => Some(j + 1)
  }

  /** The password test as written: `trim($password) === trim($stored ?? '')`,
    * a plaintext comparison. */
  predicate PlainMatches(input: string, stored: Value)
  {
    Text.PhpTrim(input) == Text.PhpTrim(TermOf(stored))
  }

  /** How a login ends. `Invalid` is the 422 a failed validation produces;
    * `UnknownUser` and `WrongPassword` are the two 401s. */
  datatype Outcome = Invalid | UnknownUser | WrongPassword | SignedIn(user: Row)

  /** The login decision, given the password test `accepts`: the first
    * active user of that name is the only one whose password is tried. */
  function Decide(users: seq<Row>, req: Request, accepts: (string, Value) -> bool): (o: Outcome)
    ensures o == Invalid <==> Validate(LoginRules, req).None?
    ensures o == UnknownUser <==>
      Validate(LoginRules, req).Some? && FindActive(users, Get(req, "username")).None?
    ensures Validate(LoginRules, req).Some? && FindActive(users, Get(req, "username")).Some? ==>
      var user := users[FindActive(users, Get(req, "username")).value];
      (o == SignedIn(user) <==> accepts(TermOf(Get(req, "password")), Get(user, "USER_PASSWORD"))) &&
      (o == WrongPassword <==> !accepts(TermOf(Get(req, "password")), Get(user, "USER_PASSWORD")))
  {
    if Validate(LoginRules, req).None? then Invalid
    else
      match FindActive(users, Get(req, "username"))
      case None => UnknownUser
      case Some(i) =>
        if accepts(TermOf(Get(req, "password")), Get(users[i], "USER_PASSWORD")) then SignedIn(users[i])
        else WrongPassword
  }

  /** A signed-in user is an active user of the requested name whose
    * password passed the test; an unknown user means no active user has
    * that name. */
  lemma DecideMeaning(users: seq<Row>, req: Request, accepts: (string, Value) -> bool)
    ensures Decide(users, req, accepts).SignedIn? ==>
      var user := Decide(users, req, accepts).user;
      user in users && IsActiveNamed(user, Get(req, "username")) &&
      accepts(TermOf(Get(req, "password")), Get(user, "USER_PASSWORD"))
    ensures Decide(users, req, accepts) == UnknownUser ==>
      forall i :: 0 <= i < |users| ==> !IsActiveNamed(users[i], Get(req, "username"))
  {
  }

  /** The session's `user` entry after a login. */
  function SessionUser(user: Row): (u: Row)
    ensures "authenticated" in u && u["authenticated"] == VBool(true)
    ensures "id" in u && u["id"] == Get(user, "OID")
    ensures "username" in u && u["username"] == Get(user, "USER_NAME_NEW")
  {
    map[
      "id" := Get(user, "OID"),
      "username" := Get(user, "USER_NAME_NEW"),
      "name" := Get(user, "USER_FULL_NAME"),
      "ssn" := Get(user, "USER_SSN"),
      "active" := Get(user, "USER_ACTIVE"),
      "read_only" := Get(user, "READ_ONLY"),
      "authenticated" := VBool(true)]
  }

  const TokenPrefix: string := "oracle-token-"

  /** `'oracle-token-' . base64_encode($oid . ':' . time())`, the encoder
    * and the clock supplied by the caller. */
  function Token(user: Row, now: int, encode: string -> string): (t: string)
    ensures |t| >= |TokenPrefix| && t[..|TokenPrefix|] == TokenPrefix
  {
    TokenPrefix + encode(TermOf(Get(user, "OID")) + ":" + Text.IntToString(now))
  }

  /** What a successful login answers with. */
  datatype Signed = Signed(token: string, user: Row)

  /** `login`: 422 on a failed validation, 401 for an unknown or inactive
    * user or a wrong password; otherwise 200 with the token and the user,
    * which the session keeps under `user`. The password test is a
    * parameter; the endpoint as written uses `PlainMatches`. */
  method Login(session: Session, users: seq<Row>, req: Request, now: int, encode: string -> string,
               accepts: (string, Value) -> bool) returns (reply: Reply<Signed>)
    modifies session
    ensures Decide(users, req, accepts) == Invalid ==>
      reply == Reply(UNPROCESSABLE, false, None) && session.entries == old(session.entries)
    ensures Decide(users, req, accepts) == UnknownUser || Decide(users, req, accepts) == WrongPassword ==>
      reply == Reply(UNAUTHORIZED, false, None) && session.entries == old(session.entries)
    ensures Decide(users, req, accepts).SignedIn? ==>
      var user := Decide(users, req, accepts).user;
      reply == Reply(OK, true, Some(Signed(Token(user, now, encode), SessionUser(user)))) &&
      session.entries == old(session.entries)["user" := SessionUser(user)]
    ensures session.csrfToken == old(session.csrfToken)
  {
    var outcome := Decide(users, req, accepts);
    match outcome {
      case Invalid =>
        reply := Reply(UNPROCESSABLE, false, None);
      case UnknownUser =>
        reply := Reply(UNAUTHORIZED, false, None);
      case WrongPassword =>
        reply := Reply(UNAUTHORIZED, false, None);
      case SignedIn(user) =>
        var data := SessionUser(user);
        session.Put("user", data);
        reply := Reply(OK, true, Some(Signed(Token(user, now, encode), data)));
    }
  }

  /** `logout`: forget the user, invalidate the session, regenerate the CSRF
    * token and redirect to `/login`. */
  method Logout(session: Session, newToken: string) returns (location: string)
    modifies session
    ensures session.entries == map[] && session.csrfToken == newToken
    ensures !Authenticated(session.entries)
    ensures location == "/login"
  {
    session.Forget("user");
    session.Invalidate();
    session.RegenerateToken(newToken);
    location := "/login";
  }

  /** The test `checkAuth` and `user` share: a `user` entry whose
    * `authenticated` flag is truthy (an empty entry has none). */
  predicate Authenticated(entries: map<string, Row>)
  {
    "user" in entries && Truthy(Get(entries["user"], "authenticated"))
  }

  /** `checkAuth`: always 200; `authenticated` and, when so, the user. */
  function CheckAuth(entries: map<string, Row>): (r: (bool, Option<Row>))
    ensures r.0 <==> Authenticated(entries)
    ensures r.0 ==> r.1 == Some(entries["user"])
    ensures !r.0 ==> r.1 == None
  {
    if "user" !in entries || entries["user"] == map[] || !Isset(entries["user"], "authenticated") ||
       !Truthy(entries["user"]["authenticated"])
    then (false, None)
    else (true, Some(entries["user"]))
  }

  predicate Isset(a: Row, k: string)
  {
    k in a && a[k] != VNull
  }

  /** `user`: 401 unless authenticated, otherwise the session's user. */
  function CurrentUser(entries: map<string, Row>): (reply: Reply<Row>)
    ensures reply.status == OK <==> CheckAuth(entries).0
    ensures reply.status == OK ==> reply.data == CheckAuth(entries).1
    ensures reply.status != OK ==> reply == Reply(UNAUTHORIZED, false, None)
  {
    if "user" !in entries || entries["user"] == map[] || !Truthy(Get(entries["user"], "authenticated"))
    then Reply(UNAUTHORIZED, false, None)
    else Reply(OK, true, Some(entries["user"]))
  }

  /** After a login the session is authenticated as that user, and after a
    * logout it is not. */
  lemma LoginAuthenticates(entries: map<string, Row>, user: Row)
    ensures CheckAuth(entries["user" := SessionUser(user)]) == (true, Some(SessionUser(user)))
    ensures CurrentUser(entries["user" := SessionUser(user)]).data == Some(SessionUser(user))
  {
    var u := SessionUser(user);
    assert u != map[] by {
      assert "authenticated" in u;
    }
  }

  /** Usernames or passwords shorter than three characters never get past
    * validation. */
  lemma ShortCredentialRefused(req: Request, field: string)
    requires field == "username" || field == "password"
    requires field in req && req[field].VStr? && |req[field].s| < 3
    ensures Validate(LoginRules, req).None?
  {
    var r := if field == "username" then LoginRules[0] else LoginRules[1];
    if Text.PhpTrim(req[field].s) == "" {
      MissingRequiredFails(LoginRules, req, r);
    } else {
      BadKindFails(LoginRules, req, r);
    }
  }

  /** `Hash::check($password, $stored)`, the test a hashed column needs;
    * `check` is the hasher's verification. */
  function HashTest(check: (string, string) -> bool): (string, Value) -> bool
  {
    (input: string, stored: Value) => stored.VStr? && check(input, stored.s)
  }

  /** As written, an account whose password column holds a hash (as the
    * users endpoint stores it) cannot sign in with its password: the
    * password is at most 30 characters and a bcrypt hash is 60, so the
    * trimmed strings always differ. */
  lemma HashedPasswordRejected(users: seq<Row>, req: Request, hash: string -> string)
    requires Validate(LoginRules, req).Some?
    requires FindActive(users, Get(req, "username")).Some?
    requires var i := FindActive(users, Get(req, "username")).value;
      Get(users[i], "USER_PASSWORD") == VStr(hash(TermOf(Get(req, "password"))))
    requires |TermOf(Get(req, "password"))| <= 30
    requires |Text.PhpTrim(hash(TermOf(Get(req, "password"))))| > 30
    ensures Decide(users, req, PlainMatches) == WrongPassword
  {
    var p := TermOf(Get(req, "password"));
    assert |Text.PhpTrim(p)| <= |p|;
    var user := users[FindActive(users, Get(req, "username")).value];
    assert !PlainMatches(p, Get(user, "USER_PASSWORD"));
  }

  /** With `Hash::check` in place of the plaintext test, the same account
    * signs in, given a hasher whose check accepts its own hashes. */
  lemma HashedPasswordAccepted(users: seq<Row>, req: Request, hash: string -> string, check: (string, string) -> bool)
    requires Validate(LoginRules, req).Some?
    requires FindActive(users, Get(req, "username")).Some?
    requires var i := FindActive(users, Get(req, "username")).value;
      Get(users[i], "USER_PASSWORD") == VStr(hash(TermOf(Get(req, "password"))))
    requires check(TermOf(Get(req, "password")), hash(TermOf(Get(req, "password"))))
    ensures Decide(users, req, HashTest(check)) == SignedIn(users[FindActive(users, Get(req, "username")).value])
  {
  }
}
