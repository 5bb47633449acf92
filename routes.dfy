/** The handlers of auth-backend/routes/auth.js: `/register`, `/login`,
    `/logout` and `/status`. Each takes the request's fields and the inputs
    the handler draws from its environment (`Date.now()`, bcrypt's salt,
    `NODE_ENV`), and returns the response it sends: status code, JSON body
    and what it does to the `token` cookie. */
module AuthRoutes {
  import opened Common
  import opened Text
  import opened Crypto
  import opened UserModel
  import opened UserStore

  /** The `user: { id, email, name }` object of a response; the password
      never leaves the store. */
  datatype UserView = UserView(id: ObjectId, email: string, name: string)

  function View(u: User): UserView {
    UserView(u.id, u.email, u.name)
  }

  /** The claims every token of these routes carries. */
  function ClaimsOf(u: User): Payload {
    Payload(u.id, u.email, u.name)
  }

  /** The options of `res.cookie("token", token, {...})`; `maxAge` is in
      milliseconds. */
  datatype CookieOptions = CookieOptions(httpOnly: bool, secure: bool, sameSite: string, maxAge: nat)

  /** What a response does to the `token` cookie. */
  datatype CookieAction =
    | KeepCookie
    | SetToken(token: string, options: CookieOptions)
    | ClearToken

  /** The JSON bodies the handlers send. */
  datatype Body =
    | Message(message: string)                                // { message }
    | Session(message: string, user: UserView, token: string) // { success: true, message, user, token }
    | Done(message: string)                                   // { success: true, message }
    | AuthStatus(isAuthenticated: bool, authUser: Option<UserView>) // { isAuthenticated, user }

  datatype Response = Response(status: nat, body: Body, cookie: CookieAction)

  /** `res.status(status).json({ message })`. */
  function Reply(status: nat, message: string): Response {
    Response(status, Message(message), KeepCookie)
  }

  const AllFieldsRequired := "All fields are required"
  const PasswordTooShort := "Password must be at least 6 characters"
  const UserExists := "User already exists"
  const RegistrationFailed := "Registration failed. Please try again."
  const CredentialsRequired := "Email and password are required"
  const InvalidCredentials := "Invalid credentials"

  /** `maxAge: 24 * 60 * 60 * 1000`. */
  const DayMs: nat := 24 * 60 * 60 * 1000

  /** `maxAge: 7 * 24 * 60 * 60 * 1000`. */
  const WeekMs: nat := 7 * 24 * 60 * 60 * 1000

  /** The `token` cookie as both routes set it; `secure` only when
      `NODE_ENV === "production"`. */
  function TokenCookie(token: string, maxAge: nat, production: bool): CookieAction {
    SetToken(token, CookieOptions(true, production, "strict", maxAge))
  }

  /** JavaScript truthiness of a body field that should be a string:
      present and not empty. */
  predicate Truthy(field: Option<string>) {
    field.Some? && field.value != ""
  }

  // ---------------------------------------------------------------- register

  /** `req.body` of `/register`; `None` is an absent field. */
  datatype RegisterBody = RegisterBody(email: Option<string>, password: Option<string>, name: Option<string>)

  /** The ways `/register` can end. */
  datatype RegisterOutcome =
    | MissingFields    // a field is absent or empty
    | ShortPassword    // fewer than 6 characters
    | FoundOnLookup    // `findOne` found a user under the normalised email
    | InvalidDocument  // the schema's `required` validators refused the document
    | Created

  /** Which way `/register` ends for `body` against the stored `records`:
      the route's own checks first, then the lookup, which the setters turn
      into a lookup of the normalised email, then `save()`, which validates
      the normalised document and inserts it under that same email. The
      unique index therefore never refuses a request the lookup let
      through. */
  function RegisterOutcomeOf(records: map<string, User>, body: RegisterBody): RegisterOutcome {
    if !(Truthy(body.email) && Truthy(body.password) && Truthy(body.name)) then MissingFields
    else if |body.password.value| < 6 then ShortPassword
    else if NormalizeEmail(body.email.value) in records then FoundOnLookup
    else if NormalizeEmail(body.email.value) == "" || Trim(body.name.value) == "" then InvalidDocument
    else Created
  }

  /** `u` is the account that `/register` creates from these fields. */
  predicate IsNewAccount(u: User, email: string, password: string, name: string,
                         bc: Bcrypt, salt: string, now: int)
  {
    && u.email == NormalizeEmail(email) && u.name == Trim(name)
    && u.password == bc.hash(password, salt)
    && !u.isVerified && u.createdAt == now && u.LockoutUntouched()
  }

  /** The 201 response for the newly stored user `u`: a 24-hour token in the
      body and in a cookie that lives 24 hours. */
  function Registered(u: User, jwt: Jwt, production: bool, now: nat): Response {
    var token := jwt.sign(ClaimsOf(u), Ttl24h, Seconds(now));
    Response(201, Session("Registration successful", View(u), token), TokenCookie(token, DayMs, production))
  }

  /** `/register` took the store from `before` to `after` and answered `res`
      as the handler does for `body`: one 400 or 500 per refusal, with the
      store unchanged, or a new account stored under the normalised email
      and a 201. */
  predicate RegisterAnswered(before: map<string, User>, after: map<string, User>, body: RegisterBody,
                             res: Response, bc: Bcrypt, jwt: Jwt, production: bool, now: nat, salt: string)
  {
    match RegisterOutcomeOf(before, body)
    case MissingFields => res == Reply(400, AllFieldsRequired) && after == before
    case ShortPassword => res == Reply(400, PasswordTooShort) && after == before
    case FoundOnLookup => res == Reply(400, UserExists) && after == before
    case InvalidDocument => res == Reply(500, RegistrationFailed) && after == before
    case Created =>
      var key := NormalizeEmail(body.email.value);
      && key !in before && key in after && after == before[key := after[key]]
      && IsNewAccount(after[key], body.email.value, body.password.value, body.name.value, bc, salt, now)
      && res == Registered(after[key], jwt, production, now)
  }

  /** What the handler does once the lookup has missed, taking the store
      from `before` to `after`: validation refuses the document with 500,
      the unique index refuses a stored email with 400, and otherwise the
      new account is stored and answered with 201. */
  predicate CreateAnswered(before: map<string, User>, after: map<string, User>,
                           email: string, password: string, name: string, res: Response,
                           bc: Bcrypt, jwt: Jwt, production: bool, now: nat, salt: string)
  {
    var key := NormalizeEmail(email);
    if key == "" || Trim(name) == "" || |password| < 6 then res == Reply(500, RegistrationFailed) && after == before
    else if key in before then res == Reply(400, UserExists) && after == before
    else
      && key in after && after == before[key := after[key]]
      && IsNewAccount(after[key], email, password, name, bc, salt, now)
      && res == Registered(after[key], jwt, production, now)
  }

  /** The `try` block of `/register` from `new User(...)` on, with its
      `catch`: build the document from the lowercased email and the trimmed
      name, save it, sign a 24-hour token and set it as a cookie; a failed
      save answers 400 for a duplicate key and 500 otherwise. */
  method CreateAccount(users: Users, email: string, password: string, name: string,
                       bc: Bcrypt, jwt: Jwt, production: bool, now: nat, salt: string)
    returns (res: Response)
    requires users.Valid()
    modifies users
    ensures users.Valid()
    ensures old(users.LockoutUntouched()) ==> users.LockoutUntouched()
    ensures CreateAnswered(old(users.records), users.records, email, password, name, res, bc, jwt, production, now, salt)
  {
    ghost var key := NormalizeEmail(email);
    var init := UserInit(ToLower(email), password, Trim(name), None, None, None);
    assert NormalizeEmail(init.email) == key by {
      NormalizeEmailIdempotent(email);
    }
    assert Trim(init.name) == Trim(name) by {
      TrimIdempotent(name);
    }
    var saved := users.Create(init, bc, salt, now);
    if saved.Failure? {
      if saved.error == DuplicateKey {
        return Reply(400, UserExists);
      }
      return Reply(500, RegistrationFailed);
    }
    var u := saved.value;
    var token := jwt.sign(Payload(u.id, u.email, u.name), Ttl24h, Seconds(now));
    res := Response(201, Session("Registration successful", UserView(u.id, u.email, u.name), token),
                    TokenCookie(token, DayMs, production));
  }

  /** `POST /register`. */
  method Register(users: Users, body: RegisterBody, bc: Bcrypt, jwt: Jwt, production: bool, now: nat, salt: string)
    returns (res: Response)
    requires users.Valid()
    modifies users
    ensures users.Valid()
    ensures old(users.LockoutUntouched()) ==> users.LockoutUntouched()
    ensures RegisterAnswered(old(users.records), users.records, body, res, bc, jwt, production, now, salt)
  {
    ghost var before := users.records;
    if !(Truthy(body.email) && Truthy(body.password) && Truthy(body.name)) {
      return Reply(400, AllFieldsRequired);
    }
    var email, password, name := body.email.value, body.password.value, body.name.value;
    if |password| < 6 {
      return Reply(400, PasswordTooShort);
    }
    var existing := users.FindOne(ToLower(email));
    NormalizeEmailIdempotent(email);
    if existing.Some? {
      return Reply(400, UserExists);
    }
    res := CreateAccount(users, email, password, name, bc, jwt, production, now, salt);
  }

  /** An email that differs from a stored one only by leading whitespace is
      caught by the lookup: the setters trim the query as they trim the
      stored email, so the handler answers 400 before it builds a document. */
  lemma PaddedDuplicateFoundOnLookup(records: map<string, User>, body: RegisterBody, pad: string)
    requires Truthy(body.email) && Truthy(body.password) && Truthy(body.name)
    requires |body.password.value| >= 6
    requires forall k :: 0 <= k < |pad| ==> IsSpace(pad[k])
    requires NormalizeEmail(body.email.value) in records
    ensures RegisterOutcomeOf(records, body.(email := Some(pad + body.email.value))) == FoundOnLookup
  {
    var e := body.email.value;
    assert ToLower(pad + e) == ToLower(pad) + ToLower(e);
    assert ToLower(pad) == pad;
    assert TrimStart(pad + ToLower(e)) == TrimStart(ToLower(e)) by {
      TrimStartSkipsSpaces(pad, ToLower(e));
    }
  }

  /** `TrimStart` skips a prefix made only of spaces. */
  lemma {:induction false} TrimStartSkipsSpaces(pad: string, s: string)
    requires forall k :: 0 <= k < |pad| ==> IsSpace(pad[k])
    ensures TrimStart(pad + s) == TrimStart(s)
    decreases |pad|
  {
    if pad != [] {
      var whole := pad + s;
      assert whole[0] == pad[0] && IsSpace(whole[0]);
      assert whole[1..] == pad[1..] + s;
      assert TrimStart(whole) == TrimStart(whole[1..]);
      TrimStartSkipsSpaces(pad[1..], s);
    } else {
      assert pad + s == s;
    }
  }

  // ------------------------------------------------------------------- login

  /** `req.body` of `/login`; `rememberMe` is taken by its truthiness. */
  datatype LoginBody = LoginBody(email: Option<string>, password: Option<string>, rememberMe: bool)

  /** A stored user answers to the normalised email and bcrypt accepts the
      password against its hash. */
  predicate CredentialsMatch(records: map<string, User>, email: string, password: string, bc: Bcrypt) {
    NormalizeEmail(email) in records && records[NormalizeEmail(email)].ComparePassword(bc, password)
  }

  /** `expiresIn: rememberMe ? "7d" : "24h"`, in seconds. */
  function LoginTtl(rememberMe: bool): nat {
    if rememberMe then Ttl7d else Ttl24h
  }

  /** `maxAge: rememberMe ? 7 * 24 * 60 * 60 * 1000 : 24 * 60 * 60 * 1000`:
      the cookie lives exactly as long as the token it holds. */
  function LoginCookieMaxAge(rememberMe: bool): (maxAge: nat)
    ensures maxAge == LoginTtl(rememberMe) * 1000
  {
    if rememberMe then WeekMs else DayMs
  }

  /** The 200 response for the user `u` whose credentials matched. */
  function LoggedIn(u: User, rememberMe: bool, jwt: Jwt, production: bool, now: nat): Response {
    var token := jwt.sign(ClaimsOf(u), LoginTtl(rememberMe), Seconds(now));
    Response(200, Session("Login successful", View(u), token),
             TokenCookie(token, LoginCookieMaxAge(rememberMe), production))
  }

  /** `POST /login`. It only reads the store; an unknown email and a wrong
      password get the very same response. */
  method Login(users: Users, body: LoginBody, bc: Bcrypt, jwt: Jwt, production: bool, now: nat)
    returns (res: Response)
    requires users.Valid()
    ensures !(Truthy(body.email) && Truthy(body.password)) ==> res == Reply(400, CredentialsRequired)
    ensures Truthy(body.email) && Truthy(body.password)
            && !CredentialsMatch(users.records, body.email.value, body.password.value, bc) ==>
              res == Reply(400, InvalidCredentials)
    ensures Truthy(body.email) && Truthy(body.password)
            && CredentialsMatch(users.records, body.email.value, body.password.value, bc) ==>
              res == LoggedIn(users.records[NormalizeEmail(body.email.value)], body.rememberMe, jwt, production, now)
  {
    if !(Truthy(body.email) && Truthy(body.password)) {
      return Reply(400, CredentialsRequired);
    }
    var email, password := body.email.value, body.password.value;
    var user := users.FindOne(ToLower(email));
    NormalizeEmailIdempotent(email);
    if user.None? {
      return Reply(400, InvalidCredentials);
    }
    var isMatch := user.value.ComparePassword(bc, password);
    if !isMatch {
      return Reply(400, InvalidCredentials);
    }
    var tokenExpiry := if body.rememberMe then Ttl7d else Ttl24h;
    var token := jwt.sign(Payload(user.value.id, user.value.email, user.value.name), tokenExpiry, Seconds(now));
    var maxAge := if body.rememberMe then WeekMs else DayMs;
    res := Response(200, Session("Login successful", View(user.value), token),
                    TokenCookie(token, maxAge, production));
  }

  /** The token a successful login hands out verifies to the user's claims
      for exactly its lifetime, and the cookie holding it lives as long. */
  lemma LoginTokenLifetime(u: User, rememberMe: bool, jwt: Jwt, production: bool, now: nat, later: int)
    requires jwt.Sound()
    ensures var r := LoggedIn(u, rememberMe, jwt, production, now);
            && r.cookie.SetToken? && r.cookie.token == r.body.token
            && r.cookie.options.maxAge == LoginTtl(rememberMe) * 1000
            && (jwt.verify(r.body.token, later).Some? <==> later < Seconds(now) + LoginTtl(rememberMe))
            && (jwt.verify(r.body.token, later).Some? ==> jwt.verify(r.body.token, later).value.payload == ClaimsOf(u))
  {
  }

  /** Login cannot tell an unknown email from a wrong password: both end in
      one and the same response. */
  method LoginFailuresAlike(users: Users, unknown: LoginBody, wrong: LoginBody,
                            bc: Bcrypt, jwt: Jwt, production: bool, now: nat)
    returns (r1: Response, r2: Response)
    requires Truthy(unknown.email) && Truthy(unknown.password)
    requires users.Valid()
    requires Truthy(wrong.email) && Truthy(wrong.password)
    requires NormalizeEmail(unknown.email.value) !in users.records
    requires NormalizeEmail(wrong.email.value) in users.records
    requires !users.records[NormalizeEmail(wrong.email.value)].ComparePassword(bc, wrong.password.value)
    ensures r1 == r2 && r1.status == 400 && r1.cookie == KeepCookie
  {
    r1 := Login(users, unknown, bc, jwt, production, now);
    r2 := Login(users, wrong, bc, jwt, production, now);
  }

  // ------------------------------------------------------- logout and status

  /** `POST /logout`: always 200, and the `token` cookie is cleared. */
  function Logout(): (res: Response)
    ensures res.status == 200 && res.cookie == ClearToken
  {
    Response(200, Done("Logged out successfully"), ClearToken)
  }

  /** The `token` cookie a browser holds after receiving a response. */
  function NextCookie(jar: Option<string>, action: CookieAction): Option<string> {
    match action
    case KeepCookie => jar
    case SetToken(token, _) => Some(token)
    case ClearToken => None
  }

  /** The id a `token` cookie authenticates at time `now`, if any. */
  function CookieUserId(cookie: Option<string>, jwt: Jwt, now: nat): Option<ObjectId> {
    if !Truthy(cookie) then None
    else match jwt.verify(cookie.value, Seconds(now))
      case None => None
      case Some(decoded) => Some(decoded.payload.userId)
  }

  /** `GET /status`: always 200. Authenticated exactly when the cookie holds
      a token that verifies now and names a user that still exists; a missing
      cookie, a bad or expired token and a vanished user all read as
      `{ isAuthenticated: false }`. */
  method Status(users: Users, cookie: Option<string>, jwt: Jwt, now: nat) returns (res: Response)
    requires users.Valid()
    ensures res.status == 200 && res.cookie == KeepCookie && res.body.AuthStatus?
    ensures res.body.isAuthenticated <==>
              CookieUserId(cookie, jwt, now).Some? && users.IdTaken(CookieUserId(cookie, jwt, now).value)
    ensures !res.body.isAuthenticated ==> res.body.authUser == None
    ensures res.body.isAuthenticated ==>
              && res.body.authUser.Some?
              && res.body.authUser.value.id == CookieUserId(cookie, jwt, now).value
              && res.body.authUser.value.email in users.records
              && res.body.authUser.value == View(users.records[res.body.authUser.value.email])
  {
    if !Truthy(cookie) {
      return Response(200, AuthStatus(false, None), KeepCookie);
    }
    var decoded := jwt.verify(cookie.value, Seconds(now));
    if decoded.None? {
      return Response(200, AuthStatus(false, None), KeepCookie);
    }
    var user := users.FindById(decoded.value.payload.userId);
    if user.None? {
      return Response(200, AuthStatus(false, None), KeepCookie);
    }
    res := Response(200, AuthStatus(true, Some(View(user.value))), KeepCookie);
  }

  /** After `/logout` the browser sends no token, so `/status` reads
      unauthenticated whatever cookie it held before. */
  method StatusAfterLogout(users: Users, jar: Option<string>, jwt: Jwt, now: nat) returns (res: Response)
    requires users.Valid()
    ensures res.status == 200 && res.body == AuthStatus(false, None)
  {
    var out := Logout();
    res := Status(users, NextCookie(jar, out.cookie), jwt, now);
  }

  // -------------------------------------------------------------- round trips

  /** Register, then log in with the same password and any email with the
      same normal form (other case, surrounding whitespace): the login
      succeeds and names the user just created. */
  method RegisterThenLogin(users: Users, email: string, password: string, name: string,
                           email2: string, rememberMe: bool,
                           bc: Bcrypt, jwt: Jwt, production: bool, now: nat, later: nat, salt: string)
    returns (registered: Response, loggedIn: Response)
    requires users.Valid() && bc.Sound()
    requires NormalizeEmail(email2) == NormalizeEmail(email)
    modifies users
    ensures registered.status == 201 ==>
              && registered.body.Session? && loggedIn.body.Session?
              && loggedIn.status == 200
              && loggedIn.body.user == registered.body.user
              && loggedIn.body.token == jwt.sign(Payload(registered.body.user.id, registered.body.user.email,
                                                         registered.body.user.name),
                                                 LoginTtl(rememberMe), Seconds(later))
  {
    registered := Register(users, RegisterBody(Some(email), Some(password), Some(name)), bc, jwt, production, now, salt);
    assert NormalizeEmail("") == "";
    loggedIn := Login(users, LoginBody(Some(email2), Some(password), rememberMe), bc, jwt, production, later);
  }

  /** The cookie set by a 201 from `/register` authenticates its user at any
      time within the token's 24 hours, whatever cookie the browser held. */
  lemma RegisteredCookieAuthenticates(u: User, jwt: Jwt, production: bool, now: nat, later: nat,
                                      jar: Option<string>)
    requires jwt.Sound()
    requires Seconds(later) < Seconds(now) + Ttl24h
    ensures CookieUserId(NextCookie(jar, Registered(u, jwt, production, now).cookie), jwt, later) == Some(u.id)
  {
    var token := jwt.sign(ClaimsOf(u), Ttl24h, Seconds(now));
    assert NextCookie(jar, Registered(u, jwt, production, now).cookie) == Some(token);
    assert jwt.verify(token, Seconds(later)) == Some(Decoded(ClaimsOf(u), Seconds(now), Seconds(now) + Ttl24h));
  }

  /** Register, then present the cookie it set to `/status` within 24 hours:
      the browser is authenticated as the user just created. */
  method RegisterThenStatus(users: Users, body: RegisterBody, bc: Bcrypt, jwt: Jwt,
                            production: bool, now: nat, later: nat, salt: string, jar: Option<string>)
    returns (registered: Response, status: Response)
    requires users.Valid() && jwt.Sound()
    requires Seconds(later) < Seconds(now) + Ttl24h
    modifies users
    ensures registered.status == 201 ==>
              registered.body.Session? && status.body == AuthStatus(true, Some(registered.body.user))
  {
    ghost var before := users.records;
    registered := Register(users, body, bc, jwt, production, now, salt);
    ghost var u: User;
    if registered.status == 201 {
      assert RegisterOutcomeOf(before, body) == Created;
      u := users.records[NormalizeEmail(body.email.value)];
      assert registered == Registered(u, jwt, production, now);
      RegisteredCookieAuthenticates(u, jwt, production, now, later, jar);
      assert users.IdTaken(u.id);
    }
    status := Status(users, NextCookie(jar, registered.cookie), jwt, later);
    if registered.status == 201 {
      var shown := status.body.authUser.value;
      assert users.records[shown.email].id == u.id;
      assert shown == View(u);
    }
  }
}
