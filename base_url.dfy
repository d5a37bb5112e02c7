// `baseUrl.js`: the API origin the browser talks to, and `toApiUrl`, which
// turns a stored path (an upload, an avatar) into a URL on that origin.

module BaseUrl {
  import opened Wrappers
  import opened Text

  /** `!x` is false for a string value: it is present and not empty. */
  predicate Given(x: Option<string>) {
    x.Some? && x.value != ""
  }

  const DefaultBase: string := "http://localhost:4000"

  /** `process.env.NEXT_PUBLIC_API_BASE_URL || 'http://localhost:4000'` */
  function ApiBase(env: Option<string>): (r: string)
    ensures Given(env) ==> r == env.value
    ensures !Given(env) ==> r == DefaultBase
    ensures r != ""
  {
    if Given(env) then env.value else DefaultBase
  }

  /** Already a full URL: it starts with `http://` or `https://`. */
  predicate Absolute(s: string) {
    StartsWith(s, "http://") || StartsWith(s, "https://")
  }

  /** `toApiUrl(path)` */
  function ToApiUrl(path: Option<string>, env: Option<string>): (r: Option<string>)
    ensures r.None? <==> !Given(path)
    ensures Given(path) && Absolute(path.value) ==> r == path
    ensures (&& Given(path) && !Absolute(path.value) && !StartsWith(path.value, "/"))
      ==> r == Some(ApiBase(env) + "/" + path.value)
    ensures (&& Given(path) && !Absolute(path.value) && StartsWith(path.value, "/"))
      ==> r == Some(ApiBase(env) + path.value)
  {
    if !Given(path) then None
    else if Absolute(path.value) then path
    else if !StartsWith(path.value, "/") then Some(ApiBase(env) + "/" + path.value)
    else Some(ApiBase(env) + path.value)
  }

  /** A prefix of `a` is a prefix of `a + b`. */
  lemma StartsWithAppend(a: string, b: string, p: string)
    requires StartsWith(a, p)
    ensures StartsWith(a + b, p)
  {
    assert (a + b)[..|p|] == a[..|p|];
  }

  /** Every URL `toApiUrl` builds is absolute when the base is. */
  lemma ToApiUrlAbsolute(path: Option<string>, env: Option<string>)
    requires Absolute(ApiBase(env)) && Given(path)
    ensures ToApiUrl(path, env).Some? && Absolute(ToApiUrl(path, env).value)
  {
    var b, p := ApiBase(env), path.value;
    if !Absolute(p) {
      var tail := if StartsWith(p, "/") then p else "/" + p;
      assert ToApiUrl(path, env).value == b + tail;
      if StartsWith(b, "http://") {
        StartsWithAppend(b, tail, "http://");
      } else {
        StartsWithAppend(b, tail, "https://");
      }
    }
  }

  /**
   * With an absolute base, feeding a result back in changes nothing; the
   * default base is absolute.
   */
  lemma ToApiUrlIdempotent(path: Option<string>, env: Option<string>)
    requires Absolute(ApiBase(env))
    ensures ToApiUrl(ToApiUrl(path, env), env) == ToApiUrl(path, env)
    ensures Absolute(DefaultBase)
  {
    assert DefaultBase[..7] == "http://";
    if Given(path) {
      ToApiUrlAbsolute(path, env);
    }
  }

  /** A relative base is not enough: `/api` turns `a` into `/api/a` and that into `/api/api/a`. */
  lemma RelativeBaseGrows()
    ensures var env := Some("/api");
      && ToApiUrl(Some("a"), env) == Some("/api/a")
      && ToApiUrl(Some("/api/a"), env) == Some("/api/api/a")
  {
    NotPrefixAt("a", "http://", 0);
    NotPrefixAt("a", "https://", 0);
    NotPrefixAt("a", "/", 0);
    NotPrefixAt("/api/a", "http://", 0);
    NotPrefixAt("/api/a", "https://", 0);
    PrefixOfConcat("/", "api/a");
    assert "/api" + "/" + "a" == "/api/a";
    assert "/api" + "/api/a" == "/api/api/a";
  }
}
