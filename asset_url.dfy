// `assetUrl.js`: the same joining rule as `toApiUrl`, returning '' instead of
// null for a missing path, and the default avatar's URL.

module AssetUrl {
  import opened Wrappers
  import opened Text
  import opened BaseUrl

  /** `assetUrl(path)`; its `base` is the same expression as `API_BASE_URL`. */
  function AssetUrl(path: Option<string>, env: Option<string>): (r: string)
    ensures !Given(path) ==> r == ""
    ensures Given(path) && Absolute(path.value) ==> r == path.value
    ensures (&& Given(path) && !Absolute(path.value) && StartsWith(path.value, "/"))
      ==> r == ApiBase(env) + path.value
    ensures (&& Given(path) && !Absolute(path.value) && !StartsWith(path.value, "/"))
      ==> r == ApiBase(env) + "/" + path.value
  {
    if !Given(path) then ""
    else if Absolute(path.value) then path.value
    else if StartsWith(path.value, "/") then ApiBase(env) + path.value
    else ApiBase(env) + "/" + path.value
  }

  /** `defaultAvatarUrl()` */
  function DefaultAvatarUrl(env: Option<string>): (r: string)
    ensures r == ApiBase(env) + "/public/default-avatar.png"
  {
    var p := "/public/default-avatar.png";
    NotPrefixAt(p, "http://", 1);
    NotPrefixAt(p, "https://", 1);
    PrefixOfConcat("/", "public/default-avatar.png");
    AssetUrl(Some(p), env)
  }

  /** `assetUrl` and `toApiUrl` agree on every path, up to '' standing for null. */
  lemma AssetAgreesWithApi(path: Option<string>, env: Option<string>)
    ensures Given(path) ==> ToApiUrl(path, env) == Some(AssetUrl(path, env))
    ensures !Given(path) ==> ToApiUrl(path, env).None? && AssetUrl(path, env) == ""
  {
  }

  /** With an absolute base, `assetUrl` applied to its own result changes nothing. */
  lemma AssetUrlIdempotent(path: Option<string>, env: Option<string>)
    requires Absolute(ApiBase(env))
    ensures AssetUrl(Some(AssetUrl(path, env)), env) == AssetUrl(path, env)
  {
    if Given(path) {
      ToApiUrlAbsolute(path, env);
    }
  }
}
