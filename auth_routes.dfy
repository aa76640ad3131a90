/** apps/api/src/routes/auth.ts: login, logout and `/me`. The origin check is
    mounted on every route of this file (`auth.use('*', csrfProtection)`). */
module AuthRoutes {
  import opened Wrappers
  import opened Strings
  import opened Json
  import opened Schema
  import opened Errors
  import opened Middleware
  import opened Validation

  /** `loginSchema`'s output. */
  datatype LoginInput = LoginInput(email: string, password: string)

  /** `loginSchema`: a well-formed email and a non-empty password. */
  function ParseLogin(f: Formats, body: Json): (r: Parsed<LoginInput>)
    ensures r.Valid? <==>
      && body.JObject?
      && IsText(body.fields, "email") && f.isEmail(Text(body.fields, "email"))
      && IsText(body.fields, "password") && |Text(body.fields, "password")| >= 1
    ensures r.Valid? ==> r.value == LoginInput(Text(body.fields, "email"), Text(body.fields, "password"))
    ensures r.Invalid? ==> r.issues != []
  {
    match AsObject(body)
    case Reject(issues) => Invalid(issues)
    case Accept(m) =>
      var email := Required("email", StringAt(m, "email", [EmailCheck(f)]));
      var password := Required("password", StringAt(m, "password", [NonEmpty]));
      if email.Accept? && password.Accept? then Valid(LoginInput(email.value, password.value))
      else Invalid(email.Issues() + password.Issues())
  }

  /** A stored user row. */
  datatype User = User(id: string, email: string, passwordHash: string, role: string)

  /** The user as the login and `/me` replies show it: no password hash. */
  datatype PublicUser = PublicUser(id: string, email: string, role: string)

  datatype CookieOptions = CookieOptions(httpOnly: bool, sameSite: string, secure: bool, maxAge: nat, path: string)
  /** `setCookie(c, name, value, options)`. */
  datatype SetCookie = SetCookie(name: string, value: string, options: CookieOptions)
  /** `deleteCookie(c, name, { path })`. */
  datatype DeleteCookie = DeleteCookie(name: string, path: string)

  datatype LoginBody = LoginBody(user: PublicUser, cookie: SetCookie)
  datatype LogoutBody = LogoutBody(message: string, cleared: DeleteCookie)

  const InvalidCredentials: ErrorReply := ErrorResponse("INVALID_CREDENTIALS", "Invalid email or password", 401)
  const LoginFailed: ErrorReply := ErrorResponse("LOGIN_FAILED", "Login failed", 500)

  /** Seven days, in seconds. */
  const SessionMaxAge: nat := 60 * 60 * 24 * 7

  function PayloadOf(u: User): TokenPayload
  {
    TokenPayload(u.id, u.email, u.role)
  }

  /** The login handler after validation. Its collaborators are parameters:
      `findByEmail` is `prisma.user.findUnique({ where: { email } })`, `compare` is
      `bcrypt.compare`, `sign` is `generateToken`; each may throw, and any throw
      is caught as LOGIN_FAILED. `production` is `NODE_ENV === 'production'`. */
  function LoginHandler(
    input: LoginInput,
    findByEmail: string -> Call<Option<User>>,
    compare: (string, string) -> Call<bool>,
    sign: TokenPayload -> Call<string>,
    production: bool): (r: Outcome<LoginBody>)
    // An unknown email and a wrong password get the same reply.
    ensures findByEmail(input.email) == Returns(None) ==> r == Failed(InvalidCredentials)
    ensures findByEmail(input.email).Returns? && findByEmail(input.email).value.Some?
      && compare(input.password, findByEmail(input.email).value.value.passwordHash) == Returns(false)
      ==> r == Failed(InvalidCredentials)
    ensures findByEmail(input.email).Throws? ==> r == Failed(LoginFailed)
    // Every throw is caught as LOGIN_FAILED: the password check's and the signer's too.
    ensures findByEmail(input.email).Returns? && findByEmail(input.email).value.Some?
      && compare(input.password, findByEmail(input.email).value.value.passwordHash).Throws?
      ==> r == Failed(LoginFailed)
    ensures findByEmail(input.email).Returns? && findByEmail(input.email).value.Some? ==>
      var u := findByEmail(input.email).value.value;
      compare(input.password, u.passwordHash) == Returns(true) && sign(PayloadOf(u)).Throws?
      ==> r == Failed(LoginFailed)
    ensures r == Failed(InvalidCredentials) <==>
      || findByEmail(input.email) == Returns(None)
      || (&& findByEmail(input.email).Returns? && findByEmail(input.email).value.Some?
          && compare(input.password, findByEmail(input.email).value.value.passwordHash) == Returns(false))
    ensures r.Done? <==>
      && findByEmail(input.email).Returns? && findByEmail(input.email).value.Some?
      && var u := findByEmail(input.email).value.value;
      && compare(input.password, u.passwordHash) == Returns(true)
      && sign(PayloadOf(u)).Returns?
    // On success the token signs exactly {userId, email, role} of the stored user,
    // and the session cookie carries the fixed attributes.
    ensures r.Done? ==>
      var u := findByEmail(input.email).value.value;
      && r.status == 200
      && r.value.user == PublicUser(u.id, u.email, u.role)
      && r.value.cookie.name == "auth-token"
      && r.value.cookie.value == sign(TokenPayload(u.id, u.email, u.role)).value
      && r.value.cookie.options == CookieOptions(true, "Lax", production, 604800, "/")
    ensures r.Failed? ==> r.error in {InvalidCredentials, LoginFailed}
  {
    match findByEmail(input.email)
    case Throws => Failed(LoginFailed)
    case Returns(None) => Failed(InvalidCredentials)
    case Returns(Some(user)) =>
      match compare(input.password, user.passwordHash)
      case Throws => Failed(LoginFailed)
      case Returns(ok) =>
        if !ok then Failed(InvalidCredentials)
        else match sign(PayloadOf(user))
          case Throws => Failed(LoginFailed)
          case Returns(token) =>
            var options := CookieOptions(true, "Lax", production, SessionMaxAge, "/");
            Done(200, LoginBody(PublicUser(user.id, user.email, user.role), SetCookie("auth-token", token, options)))
  }

  /** `POST /auth/login`: the origin check, then `validate(loginSchema)`, then the handler. */
  function LoginRoute(
    req: Request,
    body: Option<Json>,
    f: Formats,
    findByEmail: string -> Call<Option<User>>,
    compare: (string, string) -> Call<bool>,
    sign: TokenPayload -> Call<string>,
    production: bool): (r: Outcome<LoginBody>)
    requires req.verb == "POST"
    ensures CsrfProtection(req.verb, req.origin, req.host).Halt? ==> r == Failed(CrossOriginBlocked)
    ensures CsrfProtection(req.verb, req.origin, req.host).Proceed? ==>
      match Validate(body, j => ParseLogin(f, j))
      case Halt(e) => r == Failed(e)
      case Proceed(input) => r == LoginHandler(input, findByEmail, compare, sign, production)
  {
    match CsrfProtection(req.verb, req.origin, req.host)
    case Halt(e) => Failed(e)
    case Proceed(_) =>
      match Validate(body, j => ParseLogin(f, j))
      case Halt(e) => Failed(e)
      case Proceed(input) => LoginHandler(input, findByEmail, compare, sign, production)
  }

  /** A malformed login body is answered 400 whatever the user store, bcrypt
      and the signer would do: no credential lookup takes place. */
  lemma MalformedLoginSkipsLookup(
    req: Request, body: Option<Json>, f: Formats,
    find1: string -> Call<Option<User>>, compare1: (string, string) -> Call<bool>, sign1: TokenPayload -> Call<string>,
    find2: string -> Call<Option<User>>, compare2: (string, string) -> Call<bool>, sign2: TokenPayload -> Call<string>,
    production: bool)
    requires req.verb == "POST" && CsrfProtection(req.verb, req.origin, req.host).Proceed?
    requires body.None? || ParseLogin(f, body.value).Invalid?
    ensures LoginRoute(req, body, f, find1, compare1, sign1, production)
         == LoginRoute(req, body, f, find2, compare2, sign2, production)
    ensures LoginRoute(req, body, f, find1, compare1, sign1, production).Failed?
    ensures LoginRoute(req, body, f, find1, compare1, sign1, production).error.status == 400
  {
  }

  /** A login body whose email is not well-formed is a VALIDATION_ERROR. */
  lemma {:induction false} MalformedEmailRejected(req: Request, f: Formats, email: string, password: string,
    findByEmail: string -> Call<Option<User>>, compare: (string, string) -> Call<bool>,
    sign: TokenPayload -> Call<string>, production: bool)
    requires req.verb == "POST" && CsrfProtection(req.verb, req.origin, req.host).Proceed?
    requires !f.isEmail(email)
    ensures var body := JObject(map["email" := JString(email), "password" := JString(password)]);
      var r := LoginRoute(req, Some(body), f, findByEmail, compare, sign, production);
      r.Failed? && r.error.Code() == "VALIDATION_ERROR" && r.error.status == 400
  {
    var body := JObject(map["email" := JString(email), "password" := JString(password)]);
    assert ParseLogin(f, body).Invalid?;
  }

  const LoggedOutMessage: string := "Logged out successfully"

  /** `POST /auth/logout`: past the origin check it always answers 200 and
      deletes the cookie; it never looks at the session. */
  function LogoutRoute(req: Request): (r: Outcome<LogoutBody>)
    requires req.verb == "POST"
    ensures r.Done? <==> CsrfProtection(req.verb, req.origin, req.host).Proceed?
    ensures r.Done? ==> r == Done(200, LogoutBody(LoggedOutMessage, DeleteCookie("auth-token", "/")))
    ensures r.Failed? ==> r.error == CrossOriginBlocked
  {
    match CsrfProtection(req.verb, req.origin, req.host)
    case Halt(e) => Failed(e)
    case Proceed(_) => Done(200, LogoutBody(LoggedOutMessage, DeleteCookie("auth-token", "/")))
  }

  /** Logging out does not depend on the session cookie, present or not. */
  lemma LogoutIgnoresSession(req: Request, session: Option<string>)
    requires req.verb == "POST"
    ensures LogoutRoute(req.(authCookie := session)) == LogoutRoute(req)
  {
  }

  const TokenKey: string := "auth-token="

  /** The longest prefix of `s` without `;`: the greedy `[^;]+`. */
  function RunToSemicolon(s: string): (r: string)
    ensures |r| <= |s| && r == s[..|r|]
    ensures forall k :: 0 <= k < |r| ==> r[k] != ';'
    ensures |r| == |s| || s[|r|] == ';'
    decreases |s|
  {
    if s == [] || s[0] == ';' then "" else [s[0]] + RunToSemicolon(s[1..])
  }

  /** `/auth-token=([^;]+)/` matches at position `i` of the header. */
  ghost predicate MatchesAt(header: string, i: int)
  {
    0 <= i && i + |TokenKey| < |header| && header[i..i + |TokenKey|] == TokenKey && header[i + |TokenKey|] != ';'
  }

  /** `i` is the leftmost match and `t` its capture. */
  ghost predicate LeftmostMatch(header: string, i: int, t: string)
  {
    && MatchesAt(header, i)
    && (forall j :: 0 <= j < i ==> !MatchesAt(header, j))
    && t == RunToSemicolon(header[i + |TokenKey|..])
  }

  /** The capture group of the leftmost match of the unanchored regex. */
  function TokenFromHeader(header: string): (r: Option<string>)
    ensures r.None? <==> forall i :: 0 <= i < |header| ==> !MatchesAt(header, i)
    ensures r.Some? ==> exists i :: LeftmostMatch(header, i, r.value)
    ensures r.Some? ==> r.value != ""
    decreases |header|
  {
    if StartsWith(header, TokenKey) && |header| > |TokenKey| && header[|TokenKey|] != ';' then
      assert LeftmostMatch(header, 0, RunToSemicolon(header[|TokenKey|..]));
      Some(RunToSemicolon(header[|TokenKey|..]))
    else if header == [] then None
    else
      var rest := TokenFromHeader(header[1..]);
      MatchesShift(header);
      assert rest.Some? ==> exists i :: LeftmostMatch(header, i, rest.value) by {
        if rest.Some? {
          var j :| LeftmostMatch(header[1..], j, rest.value);
          LeftmostShift(header, j, rest.value);
        }
      }
      rest
  }

  lemma MatchesShift(header: string)
    requires header != []
    ensures !(StartsWith(header, TokenKey) && |header| > |TokenKey| && header[|TokenKey|] != ';') ==> !MatchesAt(header, 0)
    ensures forall i :: 1 <= i < |header| ==> (MatchesAt(header, i) <==> MatchesAt(header[1..], i - 1))
  {
    forall i | 1 <= i < |header| ensures MatchesAt(header, i) <==> MatchesAt(header[1..], i - 1) {
      if i + |TokenKey| < |header| {
        assert header[1..][i - 1..i - 1 + |TokenKey|] == header[i..i + |TokenKey|];
      }
    }
  }

  lemma LeftmostShift(header: string, j: int, t: string)
    requires header != [] && !MatchesAt(header, 0)
    requires forall i :: 1 <= i < |header| ==> (MatchesAt(header, i) <==> MatchesAt(header[1..], i - 1))
    requires LeftmostMatch(header[1..], j, t)
    ensures LeftmostMatch(header, j + 1, t)
  {
    assert header[1..][j + |TokenKey|..] == header[j + 1 + |TokenKey|..];
    assert MatchesAt(header, j + 1);
    forall k | 0 <= k < j + 1 ensures !MatchesAt(header, k) {
      if k > 0 {
        assert !MatchesAt(header[1..], k - 1);
      }
    }
  }

  /** The regex is unanchored: a cookie whose name merely ends in `auth-token`
      is taken for the session token. */
  lemma {:induction false} SuffixNamedCookieMatches(value: string)
    requires value != "" && forall k :: 0 <= k < |value| ==> value[k] != ';'
    ensures TokenFromHeader("my-" + TokenKey + value) == Some(value)
  {
    var h := "my-" + TokenKey + value;
    assert !StartsWith(h, TokenKey) by { assert h[0] != TokenKey[0]; }
    assert !StartsWith(h[1..], TokenKey) by { assert h[1..][0] != TokenKey[0]; }
    assert !StartsWith(h[2..], TokenKey) by { assert h[2..][0] != TokenKey[0]; }
    assert h[3..] == TokenKey + value;
    assert StartsWith(h[3..], TokenKey);
    var t := h[3..];
    assert t[|TokenKey|..] == value;
    assert |t| > |TokenKey| && t[|TokenKey|] == value[0] != ';';
    RunWholeValue(value);
    assert TokenFromHeader(t) == Some(value);
    assert TokenFromHeader(h[2..]) == TokenFromHeader(h[2..][1..]);
    assert h[2..][1..] == h[3..];
    assert TokenFromHeader(h[1..]) == TokenFromHeader(h[1..][1..]);
    assert h[1..][1..] == h[2..];
    assert TokenFromHeader(h) == TokenFromHeader(h[1..]);
  }

  lemma {:induction false} RunWholeValue(value: string)
    requires forall k :: 0 <= k < |value| ==> value[k] != ';'
    ensures RunToSemicolon(value) == value
  {
    var r := RunToSemicolon(value);
    assert |r| == |value|;
  }

  datatype MeBody = MeBody(user: PublicUser)

  const NotAuthenticated: ErrorReply := ErrorResponse("UNAUTHORIZED", "Not authenticated", 401)
  const UserNotFound: ErrorReply := ErrorResponse("USER_NOT_FOUND", "User not found", 404)

  /** `GET /auth/me`. `cookieHeader` is the raw `Cookie` header; `verify` is
      `verifyToken` and `findById` the user lookup by id (selecting id, email and
      role); either may throw, and a throw is answered INVALID_TOKEN. */
  function MeHandler(
    cookieHeader: Option<string>,
    verify: string -> Call<TokenPayload>,
    findById: string -> Call<Option<PublicUser>>): (r: Outcome<MeBody>)
    ensures (cookieHeader.None? || TokenFromHeader(cookieHeader.value).None?) <==> r == Failed(NotAuthenticated)
    ensures cookieHeader.Some? && TokenFromHeader(cookieHeader.value).Some? ==>
      var payload := verify(TokenFromHeader(cookieHeader.value).value);
      && (payload.Throws? ==> r == Failed(InvalidToken))
      && (payload.Returns? && findById(payload.value.userId).Throws? ==> r == Failed(InvalidToken))
      && (payload.Returns? && findById(payload.value.userId) == Returns(None) ==> r == Failed(UserNotFound))
      && (payload.Returns? && findById(payload.value.userId).Returns? && findById(payload.value.userId).value.Some? ==>
            r == Done(200, MeBody(findById(payload.value.userId).value.value)))
    ensures r.Failed? ==> r.error in {NotAuthenticated, InvalidToken, UserNotFound}
  {
    var token := if cookieHeader.None? then None else TokenFromHeader(cookieHeader.value);
    match token
    case None => Failed(NotAuthenticated)
    case Some(t) =>
      match verify(t)
      case Throws => Failed(InvalidToken)
      case Returns(payload) =>
        match findById(payload.userId)
        case Throws => Failed(InvalidToken)
        case Returns(None) => Failed(UserNotFound)
        case Returns(Some(user)) => Done(200, MeBody(user))
  }

  /** `GET /auth/me` behind the origin check, which never stops a GET. */
  function MeRoute(
    req: Request,
    cookieHeader: Option<string>,
    verify: string -> Call<TokenPayload>,
    findById: string -> Call<Option<PublicUser>>): (r: Outcome<MeBody>)
    requires req.verb == "GET"
    ensures r == MeHandler(cookieHeader, verify, findById)
  {
    match CsrfProtection(req.verb, req.origin, req.host)
    case Halt(e) => Failed(e)
    case Proceed(_) => MeHandler(cookieHeader, verify, findById)
  }
}
