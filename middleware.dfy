/** `authMiddleware` of auth-backend/middleware/auth.js: find a token in the
    `Authorization` header or else in the `token` cookie, verify it, and
    either answer 401 or record the claims on the request and pass it on. */
module AuthMiddleware {
  import opened Common
  import opened Text
  import opened Crypto
  import opened UserModel
  import opened AuthRoutes

  const NoToken := "No token, authorization denied"
  const TokenNotValid := "Token is not valid"

  /** `req.headers.authorization?.split(" ")[1]`: the second space-separated
      word of the header, whatever the first word is. */
  function HeaderToken(authorization: Option<string>): Option<string> {
    if authorization.None? then None
    else
      var words := Split(authorization.value, ' ');
      if |words| >= 2 then Some(words[1]) else None
  }

  /** `HeaderToken(...) || req.cookies.token`: the header's word when it is a
      non-empty string, and otherwise whatever the cookie holds. */
  function ExtractToken(authorization: Option<string>, cookieToken: Option<string>): Option<string> {
    var fromHeader := HeaderToken(authorization);
    if Truthy(fromHeader) then fromHeader else cookieToken
  }

  /** How the middleware ends for a request. */
  datatype GateOutcome =
    | Rejected(response: Response)  // a 401 is sent and `next` is not called
    | Admitted(claims: Decoded)     // `req.user = decoded; next()`

  /** The decision of `authMiddleware` at time `now` (milliseconds). */
  function Gate(authorization: Option<string>, cookieToken: Option<string>, jwt: Jwt, now: nat): GateOutcome {
    var token := ExtractToken(authorization, cookieToken);
    if !Truthy(token) then Rejected(Reply(401, NoToken))
    else match jwt.verify(token.value, Seconds(now))
      case None => Rejected(Reply(401, TokenNotValid))
      case Some(decoded) => Admitted(decoded)
  }

  /** A header `scheme token ...` whose second word is not empty supplies
      the token, and a cookie sent beside it is ignored. */
  lemma HeaderWins(words: seq<string>, cookieToken: Option<string>)
    requires |words| >= 2 && words[1] != ""
    requires forall k :: 0 <= k < |words| ==> ' ' !in words[k]
    ensures ExtractToken(Some(Join(words, ' ')), cookieToken) == Some(words[1])
  {
    SplitJoin(words, ' ');
  }

  /** A header with no space in it (a bare token, say) yields no token, so
      the cookie decides. */
  lemma OneWordHeaderFallsBack(header: string, cookieToken: Option<string>)
    requires ' ' !in header
    ensures ExtractToken(Some(header), cookieToken) == cookieToken
  {
    SplitJoin([header], ' ');
  }

  /** A header whose second word is empty (`"Bearer "`, or two spaces before
      the token) yields no token either, so the cookie decides. */
  lemma EmptySecondWordFallsBack(words: seq<string>, cookieToken: Option<string>)
    requires |words| >= 2 && words[1] == ""
    requires forall k :: 0 <= k < |words| ==> ' ' !in words[k]
    ensures ExtractToken(Some(Join(words, ' ')), cookieToken) == cookieToken
  {
    SplitJoin(words, ' ');
  }

  /** Without a header the middleware and `/status` agree on a cookie: it is
      admitted exactly when `/status` reads a user id from it, and the claims
      name that id. */
  lemma CookieGateAgreesWithStatus(cookieToken: Option<string>, jwt: Jwt, now: nat)
    ensures Gate(None, cookieToken, jwt, now).Admitted? <==> CookieUserId(cookieToken, jwt, now).Some?
    ensures Gate(None, cookieToken, jwt, now).Admitted? ==>
              Gate(None, cookieToken, jwt, now).claims.payload.userId == CookieUserId(cookieToken, jwt, now).value
  {
    assert HeaderToken(None) == None;
  }

  /** Logging out clears the cookie but not the token: a token that `/login`
      handed out, sent as `Bearer <token>`, is still admitted after `/logout`
      until it expires, with the user's claims. */
  lemma TokenOutlivesLogout(u: User, rememberMe: bool, jwt: Jwt, production: bool, now: nat, later: nat,
                            jar: Option<string>)
    requires jwt.Sound()
    requires Seconds(later) < Seconds(now) + LoginTtl(rememberMe)
    ensures var token := LoggedIn(u, rememberMe, jwt, production, now).body.token;
            var cookie := NextCookie(jar, Logout().cookie);
            && cookie == None
            && Gate(Some(Join(["Bearer", token], ' ')), cookie, jwt, later).Admitted?
            && Gate(Some(Join(["Bearer", token], ' ')), cookie, jwt, later).claims.payload == ClaimsOf(u)
  {
    var token := jwt.sign(ClaimsOf(u), LoginTtl(rememberMe), Seconds(now));
    assert ' ' !in token && token != "";
    HeaderWins(["Bearer", token], None);
  }

  /** The Express request, of which the middleware reads the header and the
      parsed cookie and writes `user`. */
  class Request {
    const authorization: Option<string>
    const cookieToken: Option<string>
    var user: Option<Decoded>

    constructor (authorization: Option<string>, cookieToken: Option<string>)
      ensures this.authorization == authorization && this.cookieToken == cookieToken && user == None
    {
      this.authorization := authorization;
      this.cookieToken := cookieToken;
      user := None;
    }
  }

  /** `authMiddleware(req, res, next)`: `res` is the response sent, if any,
      and `nextCalls` how many times `next` was called. */
  method Authenticate(req: Request, jwt: Jwt, now: nat) returns (res: Option<Response>, nextCalls: nat)
    modifies req`user
    ensures var outcome := Gate(req.authorization, req.cookieToken, jwt, now);
            && (outcome.Rejected? ==> res == Some(outcome.response) && nextCalls == 0 && req.user == old(req.user))
            && (outcome.Admitted? ==> res == None && nextCalls == 1 && req.user == Some(outcome.claims))
  {
    var token := ExtractToken(req.authorization, req.cookieToken);
    if !Truthy(token) {
      return Some(Reply(401, NoToken)), 0;
    }
    var decoded := jwt.verify(token.value, Seconds(now));
    if decoded.None? {
      return Some(Reply(401, TokenNotValid)), 0;
    }
    req.user := decoded;
    res, nextCalls := None, 1;
  }
}
