/**
 The request verbs of a Graph client: `get`, `post`, `del`, the `search` and
 `fql` helpers built on `get`, and the OAuth dialog URL builder. Each verb is
 modelled by the request it hands to the transport, or by the argument error
 it reports without making a request. The client's token and the base host are
 parameters.
 */
module Dispatcher {
  import opened JsValues
  import opened Strings
  import opened UrlBuilder
  import opened Normalizer

  const PathTypeMessage := "Graph api url must be a string"
  const OauthDialogUrl := "http://www.facebook.com/dialog/oauth?"
  const OauthDialogUrlMobile := "http://m.facebook.com/dialog/oauth?"

  /** The form parameter that makes the Graph API treat a `POST` as a deletion. */
  const DeleteOverride := "method=delete"

  datatype Method = GET | POST

  /** The options object given to the transport. The library always asks for
      `utf-8` decoding and disables redirect following. */
  datatype Request = Request(url: string, verb: Method, body: Option<string>, encoding: string, followRedirect: bool)

  /** A verb either calls back at once with an argument error, or issues a request
      whose response then goes through `Normalizer.Receive`. */
  datatype Call = Rejected(reply: Reply) | Issue(request: Request)

  /** The argument error for a path that is not a string. */
  function PathTypeError(): Reply
  {
    Reply(MessageObject(PathTypeMessage), Null)
  }

  /** `get(path, data, callback)`; an omitted `data` (the callback in its place)
      is `Null`. */
  function Get(graphUrl: string, token: Option<string>, path: Value, data: Value, lib: Natives): (c: Call)
    ensures c.Rejected? <==> !path.Str?
    ensures c.Rejected? ==> c == Rejected(PathTypeError())
    ensures c.Issue? ==> c.request.verb == GET && c.request.body == None
    ensures c.Issue? ==> c.request.encoding == "utf-8" && !c.request.followRedirect
    ensures c.Issue? && !Truthy(data) ==> c.request.url == CleanUrl(graphUrl, path.s, token)
    ensures c.Issue? && Truthy(data) ==>
      c.request.url == CleanUrl(graphUrl, path.s + "?" + lib.stringify(data), token)
  {
    if !path.Str? then
      Rejected(PathTypeError())
    else
      var p := if Truthy(data) then path.s + "?" + lib.stringify(data) else path.s;
      Issue(Request(CleanUrl(graphUrl, p, token), GET, None, "utf-8", false))
  }

  /** `post(path, data, callback)`; the body is the stringified data even when
      no data was given. */
  function Post(graphUrl: string, token: Option<string>, path: Value, data: Value, lib: Natives): (c: Call)
    ensures c.Rejected? <==> !path.Str?
    ensures c.Rejected? ==> c == Rejected(PathTypeError())
    ensures c.Issue? ==> c.request.verb == POST && c.request.body == Some(lib.stringify(data))
    ensures c.Issue? ==> c.request.encoding == "utf-8" && !c.request.followRedirect
    ensures c.Issue? ==> c.request.url == CleanUrl(graphUrl, path.s, token)
  {
    if !path.Str? then
      Rejected(PathTypeError())
    else
      Issue(Request(CleanUrl(graphUrl, path.s, token), POST, Some(lib.stringify(data)), "utf-8", false))
  }

  /** `del(url, callback)` as written: a body-less POST whose path handed to the
      URL builder already starts with the base host, so the host appears twice. */
  function Del(graphUrl: string, token: Option<string>, path: string): (r: Request)
    ensures r.verb == POST && r.body == None && r.encoding == "utf-8" && !r.followRedirect
    ensures StartsWith(r.url, graphUrl + LeadingSlash(graphUrl + path))
  {
    CleanUrlStartsWithPath(graphUrl, graphUrl + path, token);
    Request(CleanUrl(graphUrl, graphUrl + path, token), POST, None, "utf-8", false)
  }

  /** `del` corrected: the host is prepended once, like every other verb, and
      the `POST` carries the `method=delete` parameter its comment promises. */
  function DelIntended(graphUrl: string, token: Option<string>, path: string): (r: Request)
    ensures r.verb == POST && r.body == Some(DeleteOverride) && r.encoding == "utf-8" && !r.followRedirect
    ensures StartsWith(r.url, graphUrl)
    ensures !HasToken(token) ==> r.url[|graphUrl|..] == LeadingSlash(path)
  {
    Request(CleanUrl(graphUrl, path, token), POST, Some(DeleteOverride), "utf-8", false)
  }

  /** `search(query, callback)`: a `get` of `/search?` followed by the stringified query. */
  function Search(graphUrl: string, token: Option<string>, query: Value, lib: Natives): (c: Call)
    ensures c.Issue? && c.request.verb == GET && !c.request.followRedirect
  {
    Get(graphUrl, token, Str("/search?" + lib.stringify(query)), Null, lib)
  }

  /** `fql(query, callback)`: the same request as `search`. */
  function Fql(graphUrl: string, token: Option<string>, query: Value, lib: Natives): (c: Call)
    ensures c.Issue? && c.request.verb == GET && !c.request.followRedirect
  {
    Search(graphUrl, token, query, lib)
  }

  /** `getOauthUrl(params, opts)`: the mobile dialog when `opts.mobile` is truthy,
      the desktop dialog otherwise, followed by the stringified parameters. */
  function OauthUrl(params: Value, opts: Value, lib: Natives): (r: string)
    ensures Truthy(opts) && Truthy(Prop(opts, "mobile")) ==>
      r == OauthDialogUrlMobile + lib.stringify(params)
    ensures !(Truthy(opts) && Truthy(Prop(opts, "mobile"))) ==>
      r == OauthDialogUrl + lib.stringify(params)
  {
    var url := if Truthy(opts) && Truthy(Prop(opts, "mobile")) then OauthDialogUrlMobile else OauthDialogUrl;
    url + lib.stringify(params)
  }

  /** With parameters, `get` appends `?` and the query even when the path holds
      one already, so a truthy token is always joined with `&`. */
  lemma GetWithParams(graphUrl: string, t: string, path: string, data: Value, lib: Natives)
    requires Truthy(data) && t != ""
    ensures Get(graphUrl, Some(t), Str(path), data, lib).request.url
         == graphUrl + LeadingSlash(path + "?" + lib.stringify(data)) + "&" + TokenKey + t
  {
    var p := path + "?" + lib.stringify(data);
    assert IsAt(p, "?", |path|);
    CleanUrlTokenJoinsQuery(graphUrl, p, t);
  }

  /** With parameters and a falsy token, `get` requests the base host followed
      by the slash-normalised path, `?` and the query, and nothing after it. */
  lemma GetWithParamsNoToken(graphUrl: string, token: Option<string>, path: string, data: Value, lib: Natives)
    requires Truthy(data) && !HasToken(token)
    ensures Get(graphUrl, token, Str(path), data, lib).request.url
         == graphUrl + LeadingSlash(path) + "?" + lib.stringify(data)
  {
  }

  /** Without parameters, `get` and `post` target the same URL. */
  lemma GetAndPostShareUrl(graphUrl: string, token: Option<string>, path: string, data: Value, lib: Natives)
    requires !Truthy(data)
    ensures Get(graphUrl, token, Str(path), data, lib).request.url
         == Post(graphUrl, token, Str(path), data, lib).request.url
  {
  }

  /** The search URL is `/search?` and the query on the base host, with a
      truthy token joined by `&`. */
  lemma SearchUrl(graphUrl: string, token: Option<string>, query: Value, lib: Natives)
    ensures HasToken(token) ==>
      Search(graphUrl, token, query, lib).request.url
        == graphUrl + ("/search?" + lib.stringify(query)) + "&" + TokenKey + token.value
    ensures !HasToken(token) ==>
      Search(graphUrl, token, query, lib).request.url == graphUrl + ("/search?" + lib.stringify(query))
  {
    var p := "/search?" + lib.stringify(query);
    assert Search(graphUrl, token, query, lib).request.url == CleanUrl(graphUrl, p, token);
    assert p[0] == '/';
    if HasToken(token) {
      assert IsAt(p, "?", 7);
      CleanUrlTokenJoinsQuery(graphUrl, p, token.value);
    } else {
      CleanUrlWithoutToken(graphUrl, p, token);
    }
  }

  /** `fql` and `search` issue identical requests. */
  lemma FqlIsSearch(graphUrl: string, token: Option<string>, query: Value, lib: Natives)
    ensures Fql(graphUrl, token, query, lib) == Search(graphUrl, token, query, lib)
  {
  }

  /** The mobile dialog is chosen exactly when `opts.mobile` is truthy. */
  lemma OauthUrlMobileIff(params: Value, opts: Value, lib: Natives)
    ensures var r := OauthUrl(params, opts, lib);
      StartsWith(r, OauthDialogUrlMobile) <==> Truthy(opts) && Truthy(Prop(opts, "mobile"))
  {
    var r := OauthUrl(params, opts, lib);
    if !(Truthy(opts) && Truthy(Prop(opts, "mobile"))) {
      assert r[7] == 'w';
      assert OauthDialogUrlMobile[7] == 'm';
    }
  }

  /** For any host that does not itself start with `/`, the `del` URL begins
      with the host twice, joined by `/`. */
  lemma DelDoublesHostPrefix(graphUrl: string, token: Option<string>, path: string)
    requires |graphUrl| > 0 && graphUrl[0] != '/'
    ensures StartsWith(Del(graphUrl, token, path).url, graphUrl + "/" + graphUrl)
  {
    var p := LeadingSlash(graphUrl + path);
    assert p == "/" + graphUrl + path;
    assert StartsWith(graphUrl + p, graphUrl + "/" + graphUrl) by {
      assert graphUrl + p == (graphUrl + "/" + graphUrl) + path;
    }
    StartsWithTransitive(Del(graphUrl, token, path).url, graphUrl + p, graphUrl + "/" + graphUrl);
  }

  /** The host doubling of `del`, on the library's default host. */
  lemma DelDoublesHost()
    ensures Del(DefaultGraphUrl, None, "/me").url
         == DefaultGraphUrl + "/" + DefaultGraphUrl + "/me"
  {
    var host := DefaultGraphUrl;
    var path := host + "/me";
    assert path[0] == 'h';
    assert LeadingSlash(path) == "/" + path;
    CleanUrlWithoutToken(host, path, None);
    assert Del(host, None, "/me").url == host + "/" + path;
  }

  /** `del` as written sends no body, so the `method=delete` parameter its
      comment describes never reaches the API. */
  lemma DelOmitsMethodOverride(graphUrl: string, token: Option<string>, path: string)
    ensures Del(graphUrl, token, path).verb == POST
    ensures Del(graphUrl, token, path).body != Some(DeleteOverride)
  {
  }

  /** The corrected `del` targets the same URL as `post` for the same path. */
  lemma DelIntendedMatchesPost(graphUrl: string, token: Option<string>, path: string, lib: Natives)
    ensures DelIntended(graphUrl, token, path).url == Post(graphUrl, token, Str(path), Null, lib).request.url
    ensures Del(graphUrl, token, path).url == DelIntended(graphUrl, token, graphUrl + path).url
  {
  }
}
