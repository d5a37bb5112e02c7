// `middleware.js`: the Next.js edge rule that keeps signed-out visitors on
// the login and register pages and signed-in users off them.

module AuthRedirect {
  import opened Wrappers
  import opened Text

  /** What the middleware answers: `NextResponse.next()` or a redirect to a path. */
  datatype Decision = Pass | Redirect(to: string)

  /** Next.js internals and static assets. */
  predicate IsStatic(pathname: string) {
    || StartsWith(pathname, "/_next")
    || StartsWith(pathname, "/favicon")
    || StartsWith(pathname, "/public")
    || StartsWith(pathname, "/uploads")
  }

  /** `PUBLIC_ROUTES.some(p => pathname.startsWith(p))` */
  predicate IsPublic(pathname: string) {
    StartsWith(pathname, "/login") || StartsWith(pathname, "/register")
  }

  /** `Boolean(req.cookies.get('av_token')?.value)` */
  predicate SignedIn(token: Option<string>) {
    token.Some? && token.value != ""
  }

  /** `middleware(req)` */
  function Middleware(pathname: string, token: Option<string>): (d: Decision)
    ensures IsStatic(pathname) ==> d == Pass
    ensures d == Redirect("/login") <==> !IsStatic(pathname) && !SignedIn(token) && !IsPublic(pathname)
    ensures d == Redirect("/feed") <==> !IsStatic(pathname) && SignedIn(token) && IsPublic(pathname)
    ensures d.Redirect? ==> d.to == "/login" || d.to == "/feed"
  {
    if IsStatic(pathname) then Pass
    else if !SignedIn(token) && !IsPublic(pathname) then Redirect("/login")
    else if SignedIn(token) && IsPublic(pathname) then Redirect("/feed")
    else Pass
  }

  /** `config.matcher`: `/((?!api).*)` leaves out every path whose text after the first '/' starts with `api`. */
  predicate Matched(pathname: string) {
    !StartsWith(pathname, "/api")
  }

  /** A request as routed: the middleware runs only on matched paths, the rest pass. */
  function Route(pathname: string, token: Option<string>): (d: Decision)
    ensures !Matched(pathname) ==> d == Pass
    ensures Matched(pathname) ==> d == Middleware(pathname, token)
  {
    if Matched(pathname) then Middleware(pathname, token) else Pass
  }

  /**
   * Following a redirect with the same cookie passes: `/login` is public and
   * `/feed` is neither public nor static, so nobody bounces back and forth.
   */
  lemma NoRedirectLoop(pathname: string, token: Option<string>)
    ensures Route(pathname, token).Redirect? ==> Route(Route(pathname, token).to, token) == Pass
  {
    var d := Route(pathname, token);
    if d == Redirect("/login") {
      PrefixOfConcat("/login", "");
      NotPrefixAt("/login", "/_next", 1);
      NotPrefixAt("/login", "/favicon", 1);
      NotPrefixAt("/login", "/public", 1);
      NotPrefixAt("/login", "/uploads", 1);
    } else if d == Redirect("/feed") {
      NotPrefixAt("/feed", "/login", 1);
      NotPrefixAt("/feed", "/register", 1);
      NotPrefixAt("/feed", "/_next", 1);
      NotPrefixAt("/feed", "/favicon", 2);
      NotPrefixAt("/feed", "/public", 1);
      NotPrefixAt("/feed", "/uploads", 1);
      NotPrefixAt("/feed", "/api", 1);
    }
  }

  /** "Public" is a prefix test, so `/login-x` is public too, and `/apix` is never matched. */
  lemma PrefixesCount()
    ensures IsPublic("/login-x") && Middleware("/login-x", None) == Pass
    ensures Middleware("/login-x", Some("t")) == Redirect("/feed")
    ensures !Matched("/apix") && Route("/apix", None) == Pass
  {
    PrefixOfConcat("/login", "-x");
    NotPrefixAt("/login-x", "/_next", 1);
    NotPrefixAt("/login-x", "/favicon", 1);
    NotPrefixAt("/login-x", "/public", 1);
    NotPrefixAt("/login-x", "/uploads", 1);
    PrefixOfConcat("/api", "x");
  }

  /** Anyone reaches a static asset, signed in or not, unless the matcher skipped it anyway. */
  lemma StaticAlwaysPasses(pathname: string, token: Option<string>)
    requires IsStatic(pathname)
    ensures Route(pathname, token) == Pass
  {
  }
}
