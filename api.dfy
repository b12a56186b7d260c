/**
 * URL building for requests to the content store: the base URL chosen from
 * the environment, media URLs, and the request URL assembled by `fetchAPI`.
 * The environment variable is a parameter (`None` when it is unset) and the
 * query string is an opaque string produced by the caller's serializer.
 */
module Api {
  import opened Types

  /** Base URL used when the environment does not name one. */
  const DefaultBase: string := "http://localhost:1337"

  /** `s` starts with `p`. */
  predicate StartsWith(s: string, p: string) {
    p <= s
  }

  /** A URL left alone by `getStrapiMedia`: it starts with `http` or `//`. */
  predicate IsAbsolute(url: string) {
    StartsWith(url, "http") || StartsWith(url, "//")
  }

  /**
   * `env || "http://localhost:1337"`: an unset or empty variable falls back
   * to the default, so the base is never empty.
   */
  function BaseUrl(env: Option<string>): (base: string)
    ensures base != ""
    ensures env.Some? && env.value != "" ==> base == env.value
    ensures env.None? || env.value == "" ==> base == DefaultBase
  {
    if env.Some? && env.value != "" then env.value else DefaultBase
  }

  /** `getStrapiURL(path = "")`: the base URL followed by `path`. */
  function GetStrapiURL(env: Option<string>, path: string := ""): (url: string)
    ensures StartsWith(url, BaseUrl(env)) && url[|BaseUrl(env)|..] == path
  {
    BaseUrl(env) + path
  }

  /** Called without a path, `getStrapiURL` yields the base URL itself. */
  lemma GetStrapiURLDefault(env: Option<string>)
    ensures GetStrapiURL(env) == BaseUrl(env)
  {
  }

  /** Different paths never give the same URL. */
  lemma GetStrapiURLInjective(env: Option<string>, p1: string, p2: string)
    requires GetStrapiURL(env, p1) == GetStrapiURL(env, p2)
    ensures p1 == p2
  {
  }

  /**
   * `getStrapiMedia(url)`: null stays null, an absolute URL is returned as
   * it is, and anything else (the empty string included) is prefixed with
   * the base URL.
   */
  function GetStrapiMedia(env: Option<string>, url: Option<string>): (r: Option<string>)
    ensures url.None? <==> r.None?
    ensures url.Some? && IsAbsolute(url.value) ==> r == url
    ensures url.Some? && !IsAbsolute(url.value) ==>
              r.Some? && StartsWith(r.value, BaseUrl(env)) && r.value[|BaseUrl(env)|..] == url.value
  {
    match url
    case None => None
    case Some(u) => if IsAbsolute(u) then Some(u) else Some(GetStrapiURL(env, u))
  }

  /** Every non-null media reference resolves to a non-null URL; `""` resolves to the base. */
  lemma MediaOfEmptyIsBase(env: Option<string>)
    ensures GetStrapiMedia(env, Some("")) == Some(BaseUrl(env))
  {
    assert !IsAbsolute("");
    assert BaseUrl(env) + "" == BaseUrl(env);
  }

  /** When the base URL itself starts with `http`, resolving a media URL twice changes nothing. */
  lemma MediaIdempotent(env: Option<string>, url: Option<string>)
    requires StartsWith(BaseUrl(env), "http")
    ensures GetStrapiMedia(env, GetStrapiMedia(env, url)) == GetStrapiMedia(env, url)
  {
  }

  /**
   * The request URL built by `fetchAPI(path, params)`: the base, `/api`, the
   * path, and `?` followed by the serialized query only when that query is
   * not empty.
   */
  function RequestUrl(env: Option<string>, path: string, query: string): (url: string)
    ensures StartsWith(url, GetStrapiURL(env, "/api" + path))
    ensures query == "" ==> url == GetStrapiURL(env, "/api" + path)
    ensures query != "" ==>
              var n := |GetStrapiURL(env, "/api" + path)|;
              |url| > n && url[n] == '?' && url[n + 1..] == query
  {
    GetStrapiURL(env, "/api" + path) + (if query != "" then "?" + query else "")
  }

  /** Two requests for the same path differ exactly when their query strings differ. */
  lemma RequestUrlQueryInjective(env: Option<string>, path: string, q1: string, q2: string)
    requires RequestUrl(env, path, q1) == RequestUrl(env, path, q2)
    ensures q1 == q2
  {
  }

  /** The catalog request issued by the payment route: no parameters, so no `?`. */
  lemma ProductsRequestUrl(env: Option<string>)
    ensures RequestUrl(env, "/products", "") == BaseUrl(env) + "/api/products"
  {
  }
}
