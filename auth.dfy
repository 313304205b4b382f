/** Registration, login and the bearer-token gate of routes/auth.js.
    Password hashing (bcrypt) and token signing (JSON Web Tokens) are not
    modelled: they are supplied as the function values of a `Crypto` record,
    and the lemmas that need them assume only the laws in `Sound`. */
module Auth {
  import opened Common

  /** A stored user. `password` holds the hash, never the plaintext. */
  datatype User = User(id: UserId, username: string, email: string, password: string)

  /** What a token carries: exactly the user id and the username. */
  datatype Payload = Payload(userId: UserId, username: string)

  /** The user object login answers with: no password field. */
  datatype UserView = UserView(id: UserId, email: string, username: string)

  datatype Session = Session(token: string, user: UserView)

  /** `hash(password, salt)` and `compare(password, hash)` stand for bcrypt,
      `sign` and `verify` for jsonwebtoken with the server's secret. */
  datatype Crypto = Crypto(
    hash: (string, string) -> string,
    compare: (string, string) -> bool,
    sign: Payload -> string,
    verify: string -> Option<Payload>)

  /** The only facts the model relies on: a password matches its own hash,
      a token the server signed verifies to what was signed, and a signed
      token is never the empty string. */
  ghost predicate Sound(c: Crypto)
  {
    && (forall password, salt :: c.compare(password, c.hash(password, salt)))
    && (forall payload :: c.verify(c.sign(payload)) == Some(payload))
    && (forall payload :: c.sign(payload) != "")
  }

  datatype AuthError =
    | MissingFields
    | UsernameInUse
    | EmailInUse
    | InvalidCredentials
    | NoToken
    | InvalidToken

  function ErrorStatus(e: AuthError): nat
  {
    if e == NoToken then 401 else 400
  }

  function ErrorMessage(e: AuthError): string
  {
    match e
    case MissingFields => "All fields are required"
    case UsernameInUse => "Username already in use"
    case EmailInUse => "Email already in use"
    case InvalidCredentials => "Invalid credentials"
    case NoToken => "Access denied. No token provided."
    case InvalidToken => "Invalid token."
  }

  /** A body field the handler treats as missing: absent, or the empty
      string. */
  predicate Falsy(field: Option<string>)
  {
    field.None? || field.value == ""
  }

  /** The first user with this username, if any. */
  function FindByUsername(users: seq<User>, username: string): (r: Option<nat>)
    ensures r.Some? ==> r.value < |users| && users[r.value].username == username
    ensures r.None? <==> forall j :: 0 <= j < |users| ==> users[j].username != username
  {
    FirstMatch(users, (u: User) => u.username == username)
  }

  /** The first user with this email, if any. */
  function FindByEmail(users: seq<User>, email: string): (r: Option<nat>)
    ensures r.Some? ==> r.value < |users| && users[r.value].email == email
    ensures r.Some? ==> forall j :: 0 <= j < r.value ==> users[j].email != email
    ensures r.None? <==> forall j :: 0 <= j < |users| ==> users[j].email != email
  {
    FirstMatch(users, (u: User) => u.email == email)
  }

  /** POST /login. Unknown email and wrong password fail alike. */
  function Login(users: seq<User>, email: string, password: string, c: Crypto)
    : (r: Result<Session, AuthError>)
    ensures r.Failure? ==> r.error == InvalidCredentials
    ensures FindByEmail(users, email).None? ==> r.Failure?
    ensures r.Success? ==>
              var u := users[FindByEmail(users, email).value];
              && c.compare(password, u.password)
              && r.value.token == c.sign(Payload(u.id, u.username))
              && r.value.user == UserView(u.id, u.email, u.username)
    ensures FindByEmail(users, email).Some? ==>
              (r.Success? <==> c.compare(password, users[FindByEmail(users, email).value].password))
  {
    match FindByEmail(users, email)
    case None => Failure(InvalidCredentials)
    case Some(i) =>
      var user := users[i];
      if !c.compare(password, user.password) then Failure(InvalidCredentials)
      else
        var token := c.sign(Payload(user.id, user.username));
        Success(Session(token, UserView(user.id, user.email, user.username)))
  }

  /** The token login hands out verifies to exactly `{userId, username}` of
      the user who logged in. */
  lemma LoginTokenVerifies(users: seq<User>, email: string, password: string, c: Crypto)
    requires Sound(c)
    requires Login(users, email, password, c).Success?
    ensures var s := Login(users, email, password, c).value;
            c.verify(s.token) == Some(Payload(s.user.id, s.user.username))
  {
  }

  /** An unknown email and a wrong password give the same answer. */
  lemma LoginFailuresIndistinguishable(users: seq<User>, unknown: string, email: string,
                                       wrong: string, password: string, c: Crypto)
    requires FindByEmail(users, unknown).None?
    requires FindByEmail(users, email).Some?
    requires !c.compare(wrong, users[FindByEmail(users, email).value].password)
    ensures Login(users, unknown, password, c) == Login(users, email, wrong, c)
    ensures Login(users, unknown, password, c) == Failure(InvalidCredentials)
  {
  }

  /** A user just registered can log in with the password they chose, and
      the answer names them. */
  lemma {:induction false} LoginAfterRegister(users: seq<User>, id: UserId, username: string, email: string,
                                              password: string, salt: string, c: Crypto)
    requires Sound(c)
    requires FindByEmail(users, email).None?
    ensures var after := users + [User(id, username, email, c.hash(password, salt))];
            Login(after, email, password, c)
            == Success(Session(c.sign(Payload(id, username)), UserView(id, email, username)))
  {
    var user := User(id, username, email, c.hash(password, salt));
    FirstMatchAppend(users, user, (u: User) => u.email == email);
    assert c.compare(password, c.hash(password, salt));
  }

  /** The user table. */
  class UserStore {
    var users: seq<User>

    /** Ids, usernames and emails are each unique in the table. */
    ghost predicate Valid()
      reads this
    {
      forall i, j :: 0 <= i < j < |users| ==>
        && users[i].id != users[j].id
        && users[i].username != users[j].username
        && users[i].email != users[j].email
    }

    constructor ()
      ensures users == [] && Valid()
    {
      users := [];
    }

    /** POST /register. Checks run in order: missing fields, taken
        username, taken email; only then is one user inserted, holding the
        hash of the password. `id` is the fresh identifier the store assigns
        and `salt` the randomness bcrypt draws. */
    method Register(username: Option<string>, email: Option<string>, password: Option<string>,
                    id: UserId, salt: string, c: Crypto) returns (r: Option<AuthError>)
      requires forall j :: 0 <= j < |users| ==> users[j].id != id
      modifies this
      ensures Falsy(username) || Falsy(email) || Falsy(password) ==>
                r == Some(MissingFields) && users == old(users)
      ensures !(Falsy(username) || Falsy(email) || Falsy(password)) ==>
                if FindByUsername(old(users), username.value).Some? then
                  r == Some(UsernameInUse) && users == old(users)
                else if FindByEmail(old(users), email.value).Some? then
                  r == Some(EmailInUse) && users == old(users)
                else
                  r.None? && users == old(users) + [User(id, username.value, email.value, c.hash(password.value, salt))]
      ensures old(Valid()) ==> Valid()
    {
      if Falsy(username) || Falsy(email) || Falsy(password) {
        return Some(MissingFields);
      }
      if FindByUsername(users, username.value).Some? {
        return Some(UsernameInUse);
      }
      if FindByEmail(users, email.value).Some? {
        return Some(EmailInUse);
      }
      var hashed := c.hash(password.value, salt);
      users := users + [User(id, username.value, email.value, hashed)];
      r := None;
    }
  }

  /** The status and message of a registration answer: 201 exactly when a
      user was inserted, and otherwise a client error carrying the
      refusal's message. */
  function RegisterReply(outcome: Option<AuthError>): (reply: (nat, string))
    ensures reply.0 == 201 <==> outcome.None?
    ensures outcome.None? ==> reply == (201, "User registered successfully")
    ensures outcome.Some? ==> 400 <= reply.0 < 500 && reply.1 == ErrorMessage(outcome.value)
  {
    match outcome
    case None => (201, "User registered successfully")
    case Some(e) => (ErrorStatus(e), ErrorMessage(e))
  }

  /** Does `pattern` occur in `s` starting at position `i`? */
  predicate OccursAt(s: string, pattern: string, i: nat)
  {
    i + |pattern| <= |s| && s[i..i + |pattern|] == pattern
  }

  /** Replacing a string pattern by nothing: only its first occurrence is
      cut out. */
  function RemoveFirst(s: string, pattern: string): (r: string)
    ensures r == s || |r| + |pattern| == |s|
    decreases |s|
  {
    if |s| < |pattern| then s
    else if s[..|pattern|] == pattern then s[|pattern|..]
    else [s[0]] + RemoveFirst(s[1..], pattern)
  }

  /** Dropping the first character shifts every occurrence left by one. */
  lemma OccursShift(s: string, pattern: string, j: nat)
    requires |s| > 0
    ensures OccursAt(s[1..], pattern, j) <==> OccursAt(s, pattern, j + 1)
  {
    if j + |pattern| <= |s[1..]| {
      assert s[1..][j..j + |pattern|] == s[j + 1..j + 1 + |pattern|];
    }
  }

  /** Where the pattern first occurs, exactly that occurrence is cut. */
  lemma {:induction false} RemoveFirstAt(s: string, pattern: string, i: nat)
    requires OccursAt(s, pattern, i)
    requires forall j :: 0 <= j < i ==> !OccursAt(s, pattern, j)
    ensures RemoveFirst(s, pattern) == s[..i] + s[i + |pattern|..]
    decreases i
  {
    if i > 0 {
      assert !OccursAt(s, pattern, 0);
      var t := s[1..];
      OccursShift(s, pattern, i - 1);
      forall j | 0 <= j < i - 1
        ensures !OccursAt(t, pattern, j)
      {
        OccursShift(s, pattern, j);
      }
      assert s[..|pattern|] != pattern;
      assert RemoveFirst(s, pattern) == [s[0]] + RemoveFirst(t, pattern);
      RemoveFirstAt(t, pattern, i - 1);
      assert s[..i] == [s[0]] + t[..i - 1];
      assert s[i + |pattern|..] == t[i - 1 + |pattern|..];
    }
  }

  /** Where the pattern never occurs, the string is left as it is. */
  lemma {:induction false} RemoveFirstAbsent(s: string, pattern: string)
    requires forall j :: 0 <= j <= |s| ==> !OccursAt(s, pattern, j)
    ensures RemoveFirst(s, pattern) == s
    decreases |s|
  {
    if |s| >= |pattern| {
      assert !OccursAt(s, pattern, 0);
      var t := s[1..];
      forall j | 0 <= j <= |t|
        ensures !OccursAt(t, pattern, j)
      {
        OccursShift(s, pattern, j);
      }
      RemoveFirstAbsent(t, pattern);
      assert s == [s[0]] + t;
    }
  }

  const BearerPrefix: string := "Bearer "

  /** The token taken from the Authorization header: none without a
      header, otherwise the header with its first "Bearer " cut out. */
  function ExtractToken(header: Option<string>): (token: Option<string>)
    ensures token.None? <==> header.None?
    ensures token.Some? ==>
              token.value == header.value || |token.value| + |BearerPrefix| == |header.value|
  {
    match header
    case None => None
    case Some(h) => Some(RemoveFirst(h, BearerPrefix))
  }

  /** A well-formed header gives back exactly the token after the prefix. */
  lemma BearerHeaderYieldsToken(token: string)
    ensures ExtractToken(Some(BearerPrefix + token)) == Some(token)
  {
    var h := BearerPrefix + token;
    assert OccursAt(h, BearerPrefix, 0) by {
      assert h[..|BearerPrefix|] == BearerPrefix;
    }
    RemoveFirstAt(h, BearerPrefix, 0);
  }

  /** A header without "Bearer " anywhere is taken as the token itself. */
  lemma HeaderWithoutPrefixIsToken(header: string)
    requires forall j :: 0 <= j <= |header| ==> !OccursAt(header, BearerPrefix, j)
    ensures ExtractToken(Some(header)) == Some(header)
  {
    RemoveFirstAbsent(header, BearerPrefix);
  }

  /** The request as the gate sees it: the Authorization header, the
      identity it attaches, and whether the next handler was called. */
  class Request {
    var authorization: Option<string>
    var user: Option<Payload>
    var nextCalled: bool

    constructor (authorization: Option<string>)
      ensures this.authorization == authorization && user.None? && !nextCalled
    {
      this.authorization := authorization;
      user := None;
      nextCalled := false;
    }
  }

  /** What `verifyToken` decides for a header: the error it answers with,
      or the payload it attaches. An absent or empty token is refused with
      401 before verification is tried; a token that does not verify with
      400. */
  function Gate(header: Option<string>, c: Crypto): (r: Result<Payload, AuthError>)
    ensures header.None? ==> r == Failure(NoToken)
    ensures r == Failure(NoToken) <==> Falsy(ExtractToken(header))
    ensures r == Failure(InvalidToken) <==>
              !Falsy(ExtractToken(header)) && c.verify(ExtractToken(header).value).None?
    ensures r.Failure? ==> r.error in {NoToken, InvalidToken}
    ensures r.Success? ==> c.verify(ExtractToken(header).value) == Some(r.value)
  {
    var token := ExtractToken(header);
    if Falsy(token) then Failure(NoToken)
    else match c.verify(token.value)
      case None => Failure(InvalidToken)
      case Some(p) => Success(p)
  }

  /** The middleware `verifyToken`: the error it answers with, or None
      when it attached the decoded payload and passed the request on. */
  method VerifyToken(req: Request, c: Crypto) returns (r: Option<AuthError>)
    modifies req`user, req`nextCalled
    ensures match Gate(req.authorization, c)
            case Failure(e) =>
              r == Some(e) && req.user == old(req.user) && req.nextCalled == old(req.nextCalled)
            case Success(p) =>
              r.None? && req.user == Some(p) && req.nextCalled
  {
    var token := ExtractToken(req.authorization);
    if Falsy(token) {
      return Some(NoToken);
    }
    var decoded := c.verify(token.value);
    if decoded.None? {
      return Some(InvalidToken);
    }
    req.user := decoded;
    req.nextCalled := true;
    r := None;
  }

  /** A token obtained at login, sent as "Bearer " + token, gets through
      the gate with the payload that was signed. */
  lemma LoginTokenPassesGate(users: seq<User>, email: string, password: string, c: Crypto)
    requires Sound(c)
    requires Login(users, email, password, c).Success?
    ensures var s := Login(users, email, password, c).value;
            Gate(Some(BearerPrefix + s.token), c) == Success(Payload(s.user.id, s.user.username))
  {
    var s := Login(users, email, password, c).value;
    BearerHeaderYieldsToken(s.token);
    LoginTokenVerifies(users, email, password, c);
    var i := FindByEmail(users, email).value;
    assert s.token == c.sign(Payload(users[i].id, users[i].username));
    assert s.token != "";
  }
}
