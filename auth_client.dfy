/** The auth client's base-URL computation (frontend/lib/auth.ts). */
module AuthClient {
  import opened Wrappers
  import opened Strings

  const DEFAULT_API_URL := "/api"

  /** `process.env.NEXT_PUBLIC_API_URL || "/api"`: a missing or empty setting falls back to "/api". */
  function ApiUrl(setting: Option<string>): (u: string)
    ensures setting.None? || setting.value == "" ==> u == DEFAULT_API_URL
    ensures setting.Some? && setting.value != "" ==> u == setting.value
  {
    match setting
    case None => DEFAULT_API_URL
    case Some(v) => if v == "" then DEFAULT_API_URL else v
  }

  /** `API_URL.startsWith("/")`. */
  predicate IsRelative(url: string) {
    |url| > 0 && url[0] == '/'
  }

  /**
   * `BASE_URL`: for a relative API URL the page's own origin (or "" when
   * there is no window); otherwise the API URL with its first "/api" removed.
   */
  function BaseUrl(apiUrl: string, windowOrigin: Option<string>): (b: string)
    ensures IsRelative(apiUrl) ==> b == windowOrigin.GetOr("")
    ensures !IsRelative(apiUrl) && !Contains(apiUrl, DEFAULT_API_URL) ==> b == apiUrl
    ensures !IsRelative(apiUrl) && Contains(apiUrl, DEFAULT_API_URL) ==> exists i: nat ::
      && MatchesAt(apiUrl, DEFAULT_API_URL, i)
      && (forall k: nat :: k < i ==> !MatchesAt(apiUrl, DEFAULT_API_URL, k))
      && b == apiUrl[..i] + apiUrl[i + 4..]
  {
    if IsRelative(apiUrl) then windowOrigin.GetOr("")
    else
      var r := ReplaceFirst(apiUrl, DEFAULT_API_URL, "");
      if Contains(apiUrl, DEFAULT_API_URL) then
        var i: nat :| MatchesAt(apiUrl, DEFAULT_API_URL, i) && (forall k: nat :: k < i ==> !MatchesAt(apiUrl, DEFAULT_API_URL, k))
          && r == apiUrl[..i] + "" + apiUrl[i + |DEFAULT_API_URL|..];
        assert r == apiUrl[..i] + apiUrl[i + 4..];
        r
      else r
  }

  /** Without a setting the client talks to the page's own origin. */
  lemma DefaultUsesOrigin(windowOrigin: Option<string>)
    ensures BaseUrl(ApiUrl(None), windowOrigin) == windowOrigin.GetOr("")
  {
  }

  /**
   * An absolute URL that ends in "/api" and has no other "/api" loses exactly
   * that suffix: "https://host/api" becomes "https://host".
   */
  lemma AbsoluteDropsApiSuffix(p: string, windowOrigin: Option<string>)
    requires !IsRelative(p + DEFAULT_API_URL)
    requires !Contains(p, DEFAULT_API_URL)
    ensures BaseUrl(p + DEFAULT_API_URL, windowOrigin) == p
  {
    var pat := DEFAULT_API_URL;
    var s := p + pat;
    assert MatchesAt(s, pat, |p|) by {
      assert s[|p|..|p| + 4] == pat;
    }
    forall k: nat | k < |p| ensures !MatchesAt(s, pat, k) {
      if k + 4 <= |p| {
        assert s[k..k + 4] == p[k..k + 4];
        assert !MatchesAt(p, pat, k);
      } else {
        assert s[|p|] == '/';
        assert pat[|p| - k] != '/';
        assert s[k..k + 4][|p| - k] == s[|p|];
      }
    }
    var r := ReplaceFirst(s, pat, "");
    var i: nat :| MatchesAt(s, pat, i) && (forall k: nat :: k < i ==> !MatchesAt(s, pat, k)) && r == s[..i] + "" + s[i + |pat|..];
    assert i == |p|;
    assert s[..|p|] == p;
  }
}
