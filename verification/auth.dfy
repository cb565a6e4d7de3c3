/** The route guard that runs before a dashboard page is served: `withAuth` reads the
    `refresh_token` cookie, decodes its claims, checks expiry and then the role, and either
    redirects or hands the request on. Decoding (`jwtDecode`) is a parameter: a function
    from the cookie's value to the claims, `None` where decoding throws. The clock
    (`Date.now()`) is a parameter in milliseconds. */
module WithAuth {
  import opened Wrappers

  /** What the guard sees of a request: its path and its `refresh_token` cookie. */
  datatype Request = Request(pathname: string, refreshCookie: Option<string>)

  /** The decoded claims. A claim the token does not carry is `None`. */
  datatype Claims = Claims(role: Option<string>, exp: Option<int>)

  /** `NextResponse.next()` or `NextResponse.redirect(new URL(location, req.url))`. */
  datatype Response = Next | Redirect(location: string)

  type Decoder = string -> Option<Claims>

  const LoginPath := "/login"
  const UnauthorizedPath := "/unauthorized"

  /** The guard's verdict before the handler runs. */
  datatype Decision = DenyLogin | DenyRole | Admit

  /** `Date.now() >= decoded.exp * 1000`, with `exp` in seconds and `now` in milliseconds.
      A missing `exp` makes the product `NaN`, and a comparison with `NaN` is false. */
  predicate IsExpired(claims: Claims, nowMs: int) {
    claims.exp.Some? && nowMs >= claims.exp.value * 1000
  }

  /** `allowedRoles.includes(decoded.role)`. */
  predicate RoleAllowed(claims: Claims, allowedRoles: seq<string>) {
    claims.role.Some? && claims.role.value in allowedRoles
  }

  /** A session is valid when the refresh cookie is present, decodes, and has not expired. */
  predicate SessionValid(cookie: Option<string>, decode: Decoder, nowMs: int) {
    cookie.Some? && decode(cookie.value).Some? && !IsExpired(decode(cookie.value).value, nowMs)
  }

  /** The checks of `withAuth` in their order: presence, decoding, expiry, role.
      Only the cookie is read from the request. */
  function Decide(cookie: Option<string>, allowedRoles: seq<string>, decode: Decoder, nowMs: int): (d: Decision)
    ensures d == DenyLogin <==> !SessionValid(cookie, decode, nowMs)
    ensures d == DenyRole <==>
      SessionValid(cookie, decode, nowMs) && !RoleAllowed(decode(cookie.value).value, allowedRoles)
    ensures d == Admit <==>
      SessionValid(cookie, decode, nowMs) && RoleAllowed(decode(cookie.value).value, allowedRoles)
  {
    match cookie
    case None => DenyLogin
    case Some(token) =>
      match decode(token)
      case None => DenyLogin
      case Some(claims) =>
        if IsExpired(claims, nowMs) then DenyLogin
        else if !RoleAllowed(claims, allowedRoles) then DenyRole
        else Admit
  }

  /** `withAuth(handler, allowedRoles)` applied to a request. */
  function Guard(handler: Request -> Response, allowedRoles: seq<string>, decode: Decoder, nowMs: int,
                 req: Request): (r: Response)
    ensures req.refreshCookie.None? ==> r == Redirect(LoginPath)
    ensures req.refreshCookie.Some? && decode(req.refreshCookie.value).None? ==> r == Redirect(LoginPath)
    ensures (req.refreshCookie.Some? && decode(req.refreshCookie.value).Some? &&
             IsExpired(decode(req.refreshCookie.value).value, nowMs)) ==> r == Redirect(LoginPath)
    ensures (SessionValid(req.refreshCookie, decode, nowMs) &&
             !RoleAllowed(decode(req.refreshCookie.value).value, allowedRoles)) ==> r == Redirect(UnauthorizedPath)
    ensures (SessionValid(req.refreshCookie, decode, nowMs) &&
             RoleAllowed(decode(req.refreshCookie.value).value, allowedRoles)) ==> r == handler(req)
  {
    match Decide(req.refreshCookie, allowedRoles, decode, nowMs)
    case DenyLogin => Redirect(LoginPath)
    case DenyRole => Redirect(UnauthorizedPath)
    case Admit => handler(req)
  }

  /** The expiry test is `now >= exp * 1000`: the very millisecond of expiry already counts
      as expired, one millisecond earlier does not. */
  lemma ExpiryBoundary(role: Option<string>, exp: int)
    ensures IsExpired(Claims(role, Some(exp)), exp * 1000)
    ensures !IsExpired(Claims(role, Some(exp)), exp * 1000 - 1)
  {
  }

  /** An expired token is sent to the login page whatever its role and whatever roles the
      route admits: the expiry check comes before the role check. */
  lemma {:induction false} ExpiredGoesToLogin(handler: Request -> Response, allowedRoles: seq<string>,
                                              decode: Decoder, nowMs: int, req: Request)
    requires req.refreshCookie.Some? && decode(req.refreshCookie.value).Some?
    requires IsExpired(decode(req.refreshCookie.value).value, nowMs)
    ensures Guard(handler, allowedRoles, decode, nowMs, req) == Redirect(LoginPath)
    ensures Guard(handler, allowedRoles, decode, nowMs, req) != Redirect(UnauthorizedPath)
  {
    assert !SessionValid(req.refreshCookie, decode, nowMs);
  }

  /** The guard depends on the request only through its cookie (and through what the
      handler makes of it). */
  lemma {:induction false} OnlyCookieMatters(handler: Request -> Response, allowedRoles: seq<string>,
                                             decode: Decoder, nowMs: int, a: Request, b: Request)
    requires a.refreshCookie == b.refreshCookie
    requires handler(a) == handler(b)
    ensures Guard(handler, allowedRoles, decode, nowMs, a) == Guard(handler, allowedRoles, decode, nowMs, b)
  {
  }

  /** A token without an `exp` claim never expires: `undefined * 1000` is `NaN`. */
  lemma {:induction false} MissingExpNeverExpires(handler: Request -> Response, allowedRoles: seq<string>,
                                                  decode: Decoder, nowMs: int, req: Request)
    requires req.refreshCookie.Some? && decode(req.refreshCookie.value).Some?
    requires decode(req.refreshCookie.value).value.exp.None?
    requires RoleAllowed(decode(req.refreshCookie.value).value, allowedRoles)
    ensures Guard(handler, allowedRoles, decode, nowMs, req) == handler(req)
  {
    assert SessionValid(req.refreshCookie, decode, nowMs);
  }
}

/** `studentMiddleware = withAuth(async () => NextResponse.next(), ['STUDENT'])`. */
module StudentDashboard {
  import opened Wrappers
  import opened WithAuth

  const StudentRoles := ["STUDENT"]

  function StudentMiddleware(decode: Decoder, nowMs: int, req: Request): (r: Response) {
    Guard(_ => Next, StudentRoles, decode, nowMs, req)
  }

  /** The student dashboard lets a request through exactly when the session is valid and
      its role is `STUDENT`; otherwise it redirects. */
  lemma {:induction false} StudentAdmission(decode: Decoder, nowMs: int, req: Request)
    ensures StudentMiddleware(decode, nowMs, req) == Next <==>
      SessionValid(req.refreshCookie, decode, nowMs) && decode(req.refreshCookie.value).value.role == Some("STUDENT")
    ensures !SessionValid(req.refreshCookie, decode, nowMs) ==>
      StudentMiddleware(decode, nowMs, req) == Redirect(LoginPath)
    ensures SessionValid(req.refreshCookie, decode, nowMs) &&
            decode(req.refreshCookie.value).value.role == Some("LECTURER") ==>
      StudentMiddleware(decode, nowMs, req) == Redirect(UnauthorizedPath)
  {
    if SessionValid(req.refreshCookie, decode, nowMs) {
      var claims := decode(req.refreshCookie.value).value;
      assert RoleAllowed(claims, StudentRoles) <==> claims.role == Some("STUDENT");
    }
  }
}

/** `lecturerMiddleware = withAuth(async () => NextResponse.next(), ['LECTURER'])`. */
module LecturerDashboard {
  import opened Wrappers
  import opened WithAuth

  const LecturerRoles := ["LECTURER"]

  function LecturerMiddleware(decode: Decoder, nowMs: int, req: Request): (r: Response) {
    Guard(_ => Next, LecturerRoles, decode, nowMs, req)
  }

  /** The lecturer dashboard lets a request through exactly when the session is valid and
      its role is `LECTURER`; otherwise it redirects. */
  lemma {:induction false} LecturerAdmission(decode: Decoder, nowMs: int, req: Request)
    ensures LecturerMiddleware(decode, nowMs, req) == Next <==>
      SessionValid(req.refreshCookie, decode, nowMs) && decode(req.refreshCookie.value).value.role == Some("LECTURER")
    ensures !SessionValid(req.refreshCookie, decode, nowMs) ==>
      LecturerMiddleware(decode, nowMs, req) == Redirect(LoginPath)
    ensures SessionValid(req.refreshCookie, decode, nowMs) &&
            decode(req.refreshCookie.value).value.role == Some("STUDENT") ==>
      LecturerMiddleware(decode, nowMs, req) == Redirect(UnauthorizedPath)
  {
    if SessionValid(req.refreshCookie, decode, nowMs) {
      var claims := decode(req.refreshCookie.value).value;
      assert RoleAllowed(claims, LecturerRoles) <==> claims.role == Some("LECTURER");
    }
  }
}

/** `middleware.ts`: which guard decides a request, chosen by path prefix, and the
    `matcher` that decides which requests reach the middleware at all. */
module Middleware {
  import opened Wrappers
  import opened JsText
  import opened WithAuth
  import opened StudentDashboard
  import opened LecturerDashboard

  const StudentPrefix := "/dashboard/student"
  const LecturerPrefix := "/dashboard/lecturer"

  /** `config.matcher = ['/dashboard/:path*']`: `/dashboard` and everything below it. */
  predicate InMatcherScope(pathname: string) {
    pathname == "/dashboard" || StartsWith(pathname, "/dashboard/")
  }

  /** `middleware(request)`: two raw `startsWith` tests, student first. */
  function Dispatch(decode: Decoder, nowMs: int, req: Request): (r: Response) {
    if StartsWith(req.pathname, StudentPrefix) then StudentMiddleware(decode, nowMs, req)
    else if StartsWith(req.pathname, LecturerPrefix) then LecturerMiddleware(decode, nowMs, req)
    else Next
  }

  /** What the server does with a request: the middleware runs only inside the matcher's
      scope; any other path is served unguarded. */
  function Serve(decode: Decoder, nowMs: int, req: Request): (r: Response)
    ensures StartsWith(req.pathname, StudentPrefix) ==> r == StudentMiddleware(decode, nowMs, req)
    ensures StartsWith(req.pathname, LecturerPrefix) ==> r == LecturerMiddleware(decode, nowMs, req)
    ensures !StartsWith(req.pathname, StudentPrefix) && !StartsWith(req.pathname, LecturerPrefix) ==> r == Next
  {
    PrefixesInScope(req.pathname);
    PrefixesDisjoint(req.pathname);
    if InMatcherScope(req.pathname) then Dispatch(decode, nowMs, req) else Next
  }

  /** Both guarded prefixes lie inside the matcher's scope, so no guarded path escapes it. */
  lemma {:induction false} PrefixesInScope(p: string)
    ensures StartsWith(p, StudentPrefix) ==> InMatcherScope(p)
    ensures StartsWith(p, LecturerPrefix) ==> InMatcherScope(p)
  {
    if StartsWith(p, StudentPrefix) {
      assert p[..11] == StudentPrefix[..11];
    }
    if StartsWith(p, LecturerPrefix) {
      assert p[..11] == LecturerPrefix[..11];
    }
  }

  /** No path starts with both prefixes, so each request reaches at most one guard. */
  lemma {:induction false} PrefixesDisjoint(p: string)
    ensures StartsWith(p, StudentPrefix) ==> !StartsWith(p, LecturerPrefix)
  {
    if StartsWith(p, StudentPrefix) {
      assert p[11] == StudentPrefix[11] == 's';
      assert LecturerPrefix[11] == 'l';
    }
  }

  /** `/dashboard` itself is in scope but matches neither prefix: it is served unguarded,
      with or without a session. */
  lemma {:induction false} DashboardRootUnguarded(decode: Decoder, nowMs: int, cookie: Option<string>)
    ensures InMatcherScope("/dashboard")
    ensures Serve(decode, nowMs, Request("/dashboard", cookie)) == Next
  {
    assert !StartsWith("/dashboard", StudentPrefix);
    assert !StartsWith("/dashboard", LecturerPrefix);
  }

  /** The prefix test is raw: `/dashboard/studentX` is decided by the student guard. */
  lemma {:induction false} RawPrefixMatch(decode: Decoder, nowMs: int, cookie: Option<string>)
    ensures Serve(decode, nowMs, Request("/dashboard/studentX", cookie)) ==
            StudentMiddleware(decode, nowMs, Request("/dashboard/studentX", cookie))
  {
    assert StartsWith("/dashboard/studentX", StudentPrefix) by {
      assert "/dashboard/studentX"[..|StudentPrefix|] == StudentPrefix;
    }
  }

  /** A refresh token for a student that expired one second ago, on `/dashboard/student`:
      the request is redirected to the login page. */
  lemma {:induction false} ExpiredStudentScenario(decode: Decoder, nowMs: int, token: string)
    requires decode(token) == Some(Claims(Some("STUDENT"), Some(nowMs / 1000 - 1)))
    ensures Serve(decode, nowMs, Request("/dashboard/student", Some(token))) == Redirect(LoginPath)
  {
    var req := Request("/dashboard/student", Some(token));
    assert StartsWith(req.pathname, StudentPrefix);
    assert IsExpired(decode(token).value, nowMs);
  }
}
