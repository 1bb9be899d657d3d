/**
 The URL builder `cleanUrl`: normalises the leading slash of a Graph path,
 attaches the access token as a query parameter and prefixes the base host.
 The base host, a module-level variable in the library, is a parameter here.
 */
module UrlBuilder {
  import opened JsValues
  import opened Strings

  /** The base host the library starts with. */
  const DefaultGraphUrl := "https://graph.facebook.com"

  /** The query parameter name the token is sent under. */
  const TokenKey := "access_token="

  /** The client's token is truthy: present and not the empty string. */
  predicate HasToken(token: Option<string>)
  {
    token.Some? && token.value != ""
  }

  /** The test `if (token)` uses the same truthiness as every other test. */
  lemma HasTokenIsTruthy(token: Option<string>)
    ensures HasToken(token) <==> token.Some? && Truthy(Str(token.value))
  {
  }

  /** The path with a `/` in front unless it already starts with one. */
  function LeadingSlash(path: string): (p: string)
    ensures |p| > 0 && p[0] == '/'
    ensures |path| > 0 && path[0] == '/' ==> p == path
    ensures !(|path| > 0 && path[0] == '/') ==> p == "/" + path
  {
    if CharAt(path, 0) != "/" then "/" + path else path
  }

  /** The separator placed before the token: `&` when the path already has a query. */
  function Separator(path: string): (sep: char)
    ensures sep == '&' <==> Contains(path, "?")
    ensures sep == '&' || sep == '?'
  {
    if IndexOf(path, "?") != -1 then '&' else '?'
  }

  /** `cleanUrl(url, token)` against the base host `graphUrl`. */
  function CleanUrl(graphUrl: string, path: string, token: Option<string>): (r: string)
    ensures |r| > |graphUrl| && r[..|graphUrl|] == graphUrl && r[|graphUrl|] == '/'
    ensures !HasToken(token) ==> r[|graphUrl|..] == LeadingSlash(path)
    ensures HasToken(token) ==>
      var tail := TokenKey + token.value;
      var cut := |r| - |tail|;
      && |graphUrl| < cut
      && r[cut..] == tail
      && r[|graphUrl|..cut - 1] == LeadingSlash(path)
      && (r[cut - 1] == '&' <==> Contains(LeadingSlash(path), "?"))
      && (r[cut - 1] == '?' <==> !Contains(LeadingSlash(path), "?"))
  {
    var url := LeadingSlash(path);
    if HasToken(token) then
      var withToken := url + [Separator(url)] + TokenKey + token.value;
      assert withToken[..|url|] == url;
      graphUrl + withToken
    else
      graphUrl + url
  }

  /** The URL written out piece by piece, for the proofs below. */
  lemma CleanUrlPieces(graphUrl: string, path: string, token: Option<string>)
    ensures CleanUrl(graphUrl, path, token)
         == graphUrl + LeadingSlash(path)
            + (if HasToken(token) then [Separator(LeadingSlash(path))] + TokenKey + token.value else "")
  {
    if HasToken(token) {
      var url := LeadingSlash(path);
      assert graphUrl + (url + [Separator(url)] + TokenKey + token.value)
          == graphUrl + url + ([Separator(url)] + TokenKey + token.value);
    }
  }

  /** Whatever the token, the URL begins with the host and the normalised path. */
  lemma CleanUrlStartsWithPath(graphUrl: string, path: string, token: Option<string>)
    ensures StartsWith(CleanUrl(graphUrl, path, token), graphUrl + LeadingSlash(path))
  {
  }

  /** Putting the slash in front changes nothing about whether the path holds a `?`,
      so the token separator is `&` exactly when the caller's path has one. */
  lemma LeadingSlashKeepsQuery(path: string)
    ensures Contains(LeadingSlash(path), "?") <==> Contains(path, "?")
  {
    var p := LeadingSlash(path);
    ContainsChar(path, '?');
    ContainsChar(p, '?');
    if p != path {
      assert p == "/" + path;
      if exists i :: 0 <= i < |p| && p[i] == '?' {
        var i :| 0 <= i < |p| && p[i] == '?';
        assert i > 0 && path[i - 1] == '?';
      }
      if exists i :: 0 <= i < |path| && path[i] == '?' {
        var i :| 0 <= i < |path| && path[i] == '?';
        assert p[i + 1] == '?';
      }
    }
  }

  /** Normalising the leading slash twice is normalising it once. */
  lemma LeadingSlashIdempotent(path: string)
    ensures LeadingSlash(LeadingSlash(path)) == LeadingSlash(path)
  {
  }

  /** A falsy token leaves the URL as the base host followed by the normalised path. */
  lemma CleanUrlWithoutToken(graphUrl: string, path: string, token: Option<string>)
    requires !HasToken(token)
    ensures CleanUrl(graphUrl, path, token) == graphUrl + LeadingSlash(path)
    ensures |path| > 0 && path[0] == '/' ==> CleanUrl(graphUrl, path, token) == graphUrl + path
    ensures !(|path| > 0 && path[0] == '/') ==> CleanUrl(graphUrl, path, token) == graphUrl + "/" + path
  {
  }

  /** A truthy token on a path that already holds a `?` is joined with `&`. */
  lemma CleanUrlTokenJoinsQuery(graphUrl: string, path: string, t: string)
    requires t != "" && Contains(path, "?")
    ensures CleanUrl(graphUrl, path, Some(t)) == graphUrl + LeadingSlash(path) + "&" + TokenKey + t
  {
    LeadingSlashKeepsQuery(path);
    CleanUrlPieces(graphUrl, path, Some(t));
    assert [Separator(LeadingSlash(path))] == "&";
    assert graphUrl + LeadingSlash(path) + ("&" + TokenKey + t)
        == graphUrl + LeadingSlash(path) + "&" + TokenKey + t;
  }

  /** A truthy token on a path without a `?` starts the query with `?`. */
  lemma CleanUrlTokenStartsQuery(graphUrl: string, path: string, t: string)
    requires t != "" && !Contains(path, "?")
    ensures CleanUrl(graphUrl, path, Some(t)) == graphUrl + LeadingSlash(path) + "?" + TokenKey + t
  {
    LeadingSlashKeepsQuery(path);
    CleanUrlPieces(graphUrl, path, Some(t));
    assert [Separator(LeadingSlash(path))] == "?";
    assert graphUrl + LeadingSlash(path) + ("?" + TokenKey + t)
        == graphUrl + LeadingSlash(path) + "?" + TokenKey + t;
  }

  /** For a fixed host and token, two paths give the same URL exactly when they
      agree after slash normalisation: the builder loses nothing else. */
  lemma CleanUrlInjective(graphUrl: string, p1: string, p2: string, token: Option<string>)
    ensures CleanUrl(graphUrl, p1, token) == CleanUrl(graphUrl, p2, token)
        <==> LeadingSlash(p1) == LeadingSlash(p2)
  {
    CleanUrlPieces(graphUrl, p1, token);
    CleanUrlPieces(graphUrl, p2, token);
  }
}
