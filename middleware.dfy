/** apps/api/src/middleware/auth.ts: the session gate and the origin check,
    and the order in which the resource routes mount them. */
module Middleware {
  import opened Wrappers
  import opened Strings
  import opened Errors

  /** What `generateToken` signs and `verifyToken` returns. */
  datatype TokenPayload = TokenPayload(userId: string, email: string, role: string)

  /** The parts of a request the middlewares read: `verb` is the HTTP method, `authCookie` is what
      `getCookie(c, 'auth-token')` returns; `origin` and `host` are the headers. */
  datatype Request = Request(verb: string, authCookie: Option<string>, origin: Option<string>, host: Option<string>)

  /** JavaScript truthiness of an optional string: present and not empty. */
  predicate Truthy(v: Option<string>)
  {
    v.Some? && v.value != ""
  }

  const Unauthorized: ErrorReply := ErrorResponse("UNAUTHORIZED", "Authentication required", 401)
  const InvalidToken: ErrorReply := ErrorResponse("INVALID_TOKEN", "Invalid or expired token", 401)
  const CrossOriginBlocked: ErrorReply := ErrorResponse("FORBIDDEN", "Cross-origin request blocked", 403)

  /** `authMiddleware`: `Proceed(payload)` stands for `c.set('user', payload)`
      followed by the single call of `next`. `verify` is `verifyToken`, which
      may throw. */
  function AuthMiddleware(authCookie: Option<string>, verify: string -> Call<TokenPayload>): (r: Gate<TokenPayload>)
    ensures !Truthy(authCookie) <==> r == Halt(Unauthorized)
    ensures Truthy(authCookie) && verify(authCookie.value).Throws? <==> r == Halt(InvalidToken)
    ensures r.Proceed? <==> Truthy(authCookie) && verify(authCookie.value).Returns?
    ensures r.Proceed? ==> r.value == verify(authCookie.value).value
  {
    if !Truthy(authCookie) then Halt(Unauthorized)
    else match verify(authCookie.value)
      case Throws => Halt(InvalidToken)
      case Returns(payload) => Proceed(payload)
  }

  /** The methods the origin check applies to. */
  const StateChanging: seq<string> := ["POST", "PUT", "PATCH", "DELETE"]

  /** `expectedOrigins` for a given `host` header. */
  function ExpectedOrigins(host: string): seq<string>
  {
    ["http://" + host, "https://" + host, "http://localhost:3000", "http://localhost:8787"]
  }

  /** `expected.some(e => origin.startsWith(e))`. */
  function SomePrefix(origin: string, expected: seq<string>): (r: bool)
    ensures r <==> exists i :: 0 <= i < |expected| && StartsWith(origin, expected[i])
    decreases |expected|
  {
    if expected == [] then false
    else StartsWith(origin, expected[0]) || SomePrefix(origin, expected[1..])
  }

  /** `csrfProtection`: `Proceed(())` means `next` is called. */
  function CsrfProtection(verb: string, origin: Option<string>, host: Option<string>): (r: Gate<()>)
    ensures verb !in StateChanging ==> r.Proceed?
    ensures !Truthy(origin) || !Truthy(host) ==> r.Proceed?
    ensures verb in StateChanging && Truthy(origin) && Truthy(host) ==>
      (r.Proceed? <==> exists i :: 0 <= i < 4 && StartsWith(origin.value, ExpectedOrigins(host.value)[i]))
    ensures r.Halt? ==> r.reply == CrossOriginBlocked
  {
    if verb in StateChanging && Truthy(origin) && Truthy(host)
       && !SomePrefix(origin.value, ExpectedOrigins(host.value))
    then Halt(CrossOriginBlocked)
    else Proceed(())
  }

  /** The allow-list is matched by prefix: whatever the host, an origin that
      merely begins with the development origin passes, although it is not
      that origin. */
  lemma {:induction false} PrefixNotEquality(host: string)
    requires host != ""
    ensures var origin := "http://localhost:3000.evil.example";
      && CsrfProtection("POST", Some(origin), Some(host)) == Proceed(())
      && origin != "http://localhost:3000"
  {
    var origin := "http://localhost:3000.evil.example";
    var expected := ExpectedOrigins(host);
    assert origin[..|expected[2]|] == expected[2];
    assert StartsWith(origin, expected[2]);
  }

  /** The resource routes mount `authMiddleware` and then `csrfProtection`
      (`use('*', authMiddleware); use('*', csrfProtection)`). */
  function ResourceGate(req: Request, verify: string -> Call<TokenPayload>): (r: Gate<TokenPayload>)
    ensures r.Proceed? <==>
      AuthMiddleware(req.authCookie, verify).Proceed? && CsrfProtection(req.verb, req.origin, req.host).Proceed?
    ensures r.Proceed? ==> r == AuthMiddleware(req.authCookie, verify)
    ensures AuthMiddleware(req.authCookie, verify).Halt? ==> r == AuthMiddleware(req.authCookie, verify)
  {
    match AuthMiddleware(req.authCookie, verify)
    case Halt(e) => Halt(e)
    case Proceed(user) =>
      match CsrfProtection(req.verb, req.origin, req.host)
      case Halt(e) => Halt(e)
      case Proceed(_) => Proceed(user)
  }

  /** A cross-origin write without a session is answered 401, not 403: the
      session gate runs first. */
  lemma UnauthenticatedBeforeOrigin(req: Request, verify: string -> Call<TokenPayload>)
    requires !Truthy(req.authCookie)
    ensures ResourceGate(req, verify) == Halt(Unauthorized)
    ensures ResourceGate(req, verify).reply.status == 401
  {
  }
}
