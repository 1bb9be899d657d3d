# fbgraph core in Dafny

A model of the pure logic inside the `fbgraph` Graph API client (`lib/graph.js`).
It covers four parts:

- **URL building.** `cleanUrl` puts a leading `/` on a Graph path and appends `access_token=<token>`. The token is joined with `&` when the path already has a `?`, and with `?` otherwise. The base host goes in front.
- **Response handling.** This is the part of `_request` that runs after the transport answers, plus `_end`. A transport error is wrapped. An image content type turns the body into an `{image, location}` descriptor. A string body holding both braces is JSON-parsed. Any other string is rewritten to `?data=…` or `?…` and query-decoded. A truthy `error` field is promoted to the callback's error.
- **Request descriptors.** `get`, `post` and `del` are modelled by the options object they hand to the transport, or by the argument error they report without a request. `search` and `fql` build their paths on top of `get`.
- **The OAuth dialog URL** built by `getOauthUrl`.

Modules:

- `JsValues` (`js_values.dfy`) defines the JavaScript values involved. It holds JavaScript truthiness, property reads, and the error objects the library builds. It also holds `Natives`, which stands for the library functions whose code is not modelled:
  - `JSON.parse`, as a function returning the parsed value or the thrown exception;
  - `url.parse(s, true).query`;
  - `querystring.stringify`.

  Every operation takes these as a parameter, so each property holds for every behaviour of them that depends only on an object's keys and values, not on the order of its keys.
- `Strings` (`strings.dfy`) holds `indexOf` and `charAt`. `IndexOf` is proved to find the first occurrence. It is proved to return -1 exactly when the reference predicate `Contains` says the pattern is absent. The source's `~s.indexOf(x)` is truthy exactly when the index is not -1, so it is modelled as `IndexOf(s, x) != -1`.
- `UrlBuilder` (`url_builder.dfy`) holds `cleanUrl`. The module-level `graphUrl` is an explicit parameter.
- `Normalizer` (`normalizer.dfy`) holds `_request`'s response callback (`Receive`) and `_end` (`End`).
- `Dispatcher` (`dispatcher.dfy`) holds `get`, `post`, `del`, `search`, `fql` and `getOauthUrl`.

Behaviours of the code that the model keeps as written:

- Error and result are not exclusive. The code hands both `err` and `json` to the callback. When `json.error` is truthy, `err` becomes that value and `json` is still delivered (`lib/graph.js:109-111`). `EndKeepsJsonOnDomainError` states this.
- When the body is a falsy non-string (`null`, `undefined`, `false`, `0`), `_end` calls `body.indexOf` inside its `try`. That call throws a `TypeError`, which is caught. The callback then receives `{message: 'Error parsing json', exception}` with `json` equal to the body.
- When the `content-type` header is missing, `res.headers['content-type'].indexOf` throws. This happens inside the transport's callback, where nothing catches it. The model gives `Uncaught(TypeError)`.
- `get` with parameters appends `'?' + stringify(data)` even when the path already holds a `?`. Any truthy token is then joined with `&`; `GetWithParams` states this.
- `del` passes `graphUrl + url` to `cleanUrl`, which prepends the host again. It also sends no `method=delete` parameter, although its comment says it does. The model keeps both in `Del` and records them under Findings.

## Model

| member | source | states |
|---|---|---|
| `JsValues.FalsyValues` | lib/graph.js:109 | JavaScript truthiness, used by every `if (x)` and `&&` test of the client (token, transport error, `json`, `json.error`, data, `opts.mobile`): exactly `undefined`, `null`, `false`, `0` and `""` are falsy, and every object, array and error is truthy. |
| `JsValues.Prop` | lib/graph.js:109 | The property reads `json.error` (and `opts.mobile` at line 272) give the own field of a plain object when present, and `undefined` for a missing key or any non-object. |
| `Strings.CharAt` | lib/graph.js:21 | `charAt(i)` gives the one-character string at `i`, or `""` past the end, as the tests at lines 21 and 96 use it. |
| `Strings.IndexOf` | lib/graph.js:25 | `indexOf` yields -1 exactly when the pattern does not occur. Otherwise it yields an occurrence with none earlier. |
| `UrlBuilder.HasTokenIsTruthy` | lib/graph.js:24 | The token test `if (token)` is JavaScript truthiness of a string: a token counts exactly when it is present and not `""`. |
| `UrlBuilder.LeadingSlash` | lib/graph.js:20-21 | The normalised path always starts with `/`. It equals the path when that already starts with `/`, and is `/` + path otherwise. An empty path becomes `/`. |
| `UrlBuilder.Separator` | lib/graph.js:25 | The token separator is `&` exactly when the path contains `?`, and `?` otherwise. |
| `UrlBuilder.CleanUrl` | lib/graph.js:19-30 | The URL is the host, then the normalised path (which starts with `/`). With a falsy token nothing follows. With a truthy token, `access_token=<token>` follows the path, separated by `&` exactly when the normalised path contains `?` and by `?` otherwise. |
| `UrlBuilder.CleanUrlStartsWithPath` | lib/graph.js:19-30 | Whatever the token, the URL begins with the host followed by the normalised path. |
| `UrlBuilder.LeadingSlashKeepsQuery` | lib/graph.js:21-25 | Adding the slash does not change whether the path holds a `?`. So the separator depends only on the caller's path. |
| `UrlBuilder.LeadingSlashIdempotent` | lib/graph.js:21 | Normalising an already normalised path changes nothing. |
| `UrlBuilder.CleanUrlWithoutToken` | lib/graph.js:19-30 | A falsy token (`undefined` or `""`) gives exactly host + path when the path starts with `/`, and host + `/` + path otherwise. |
| `UrlBuilder.CleanUrlTokenJoinsQuery` | lib/graph.js:24-27 | A truthy token on a path that holds `?` gives exactly host + normalised path + `&access_token=` + token. |
| `UrlBuilder.CleanUrlTokenStartsQuery` | lib/graph.js:24-27 | A truthy token on a path without `?` gives exactly host + normalised path + `?access_token=` + token. |
| `UrlBuilder.CleanUrlInjective` | lib/graph.js:19-30 | With the host and token fixed, two paths give the same URL exactly when they agree after slash normalisation. |
| `Normalizer.ImageDescriptor` | lib/graph.js:64-69 | The replacement body is a truthy object with `image: true` and the Location header as `location`. It has no `error` field. |
| `Normalizer.QueryInput` | lib/graph.js:95-96 | The rewritten body starts with `?` and contains `=`. A body without `=` becomes `?data=` + body. A body with `=` is kept, with `?` prepended when it does not already start with `?`. |
| `Normalizer.End` | lib/graph.js:78-112 | A truthy non-string body passes through as `json`. A falsy non-string gives the parse error with `json` = body. A braced string goes to `JSON.parse`: on failure the parse error is returned with `json` null, and on success `json` is the parsed value. Any other string yields the query decoding of its rewrite. When no read failed, `err` is `json.error` if both are truthy, and null otherwise. |
| `Normalizer.Receive` | lib/graph.js:53-73 | A truthy transport error gives `{message: 'Error processing request', exception}` and null, and `_end` is not reached. A missing content type throws. An `image` content type sends the image descriptor to `_end` in place of the body. Any other content type sends the body. |
| `Normalizer.EndErrorIff` | lib/graph.js:101-111 | `err` is truthy exactly when reading failed or `json.error` is truthy. A read failure always reports `Error parsing json` and is never overwritten. |
| `Normalizer.EndKeepsJsonOnDomainError` | lib/graph.js:109-111 | A promoted `json.error` becomes `err`, and `json` is still delivered with it. |
| `Normalizer.QueryInputOfBareLiteral` | lib/graph.js:91-98 | The bare body `true` is decoded from `?data=true`. |
| `Normalizer.QueryInputOfPairs` | lib/graph.js:95-98 | The body `foo=bar&baz=qux` is decoded from `?foo=bar&baz=qux`. |
| `Normalizer.QueryInputIdempotent` | lib/graph.js:95-96 | Rewriting an already rewritten body changes nothing. |
| `Normalizer.ImageIgnoresBody` | lib/graph.js:64-71 | Whatever the body, an image response reaches the callback as the image descriptor with a null error. |
| `Dispatcher.Get` | lib/graph.js:150-168 | A non-string path is rejected with `{message: 'Graph api url must be a string'}` and null, and no request is built. A string path gives a body-less `GET` with `utf-8` encoding and redirects off. Without data its URL is `cleanUrl(path, token)`. With truthy data it is `cleanUrl(path + '?' + stringify(data), token)`, even when the path already holds a `?`. |
| `Dispatcher.Post` | lib/graph.js:182-200 | The same path guard as `get`. A string path gives a `POST` to `cleanUrl(path, token)` whose body is the stringified data, even when no data was given. |
| `Dispatcher.Del` | lib/graph.js:209-216 | The request is a body-less `POST` with redirects off. Its URL begins with host + `cleanUrl`'s normalisation of host + path. |
| `Dispatcher.DelIntended` | lib/graph.js:202-216 | The corrected `del` posts `method=delete` to the host followed once by the normalised path. |
| `Dispatcher.Search` | lib/graph.js:225-228 | `search` always issues a `GET` with redirects off. |
| `Dispatcher.Fql` | lib/graph.js:244-247 | `fql` always issues a `GET` with redirects off. |
| `Dispatcher.OauthUrl` | lib/graph.js:271-274 | The URL is the mobile dialog URL followed by the stringified params when `opts && opts.mobile` is truthy, and the desktop dialog URL followed by the stringified params otherwise. |
| `Dispatcher.GetWithParams` | lib/graph.js:160-167 | With truthy data and a truthy token, `get` requests host + normalised (path + `?` + query) + `&access_token=` + token. The token is joined with `&` because of the `?` that `get` adds. |
| `Dispatcher.GetWithParamsNoToken` | lib/graph.js:160-163 | With truthy data and a falsy token, `get` requests exactly host + normalised path + `?` + query, with nothing after it. |
| `Dispatcher.GetAndPostShareUrl` | lib/graph.js:160-163 | Without data, `get` and `post` target the same URL. |
| `Dispatcher.SearchUrl` | lib/graph.js:225-228 | The search URL is host + `/search?` + query, followed by `&access_token=` + token exactly when the token is truthy. |
| `Dispatcher.FqlIsSearch` | lib/graph.js:244-247 | `fql` and `search` issue identical requests. |
| `Dispatcher.OauthUrlMobileIff` | lib/graph.js:271-274 | The URL starts with the mobile dialog URL exactly when `opts` and `opts.mobile` are both truthy. |
| `Dispatcher.DelDoublesHostPrefix` | lib/graph.js:211 | For any host not starting with `/`, the `del` URL begins with host + `/` + host. |
| `Dispatcher.DelDoublesHost` | lib/graph.js:211 | On the default host `https://graph.facebook.com` without a token, deleting `/me` targets the host, `/`, the host again, then `/me`. |
| `Dispatcher.DelOmitsMethodOverride` | lib/graph.js:203-215 | `del` as written sends a `POST` whose body is not `method=delete`: it has no body at all. |
| `Dispatcher.DelIntendedMatchesPost` | lib/graph.js:182-216 | The corrected `del` targets the same URL as `post` for the same path. The as-written `del` is the corrected one applied to host + path. |

## Left out

- The HTTP transport (`request`) and the callback plumbing (`callback || noop`, the early `return callback(...)`, `return this`). The model stops at the options object handed to the transport. It starts again at the `(err, res, body)` the transport hands back.
- The internals of `JSON.parse`, `url.parse(..).query` and `querystring.stringify`. These are library code, so they stay abstract and the properties hold for any behaviour of them that ignores key order.
- The key order of JavaScript objects. An object is an unordered map, so two literals with the same keys and values in a different order are the same `Value`. The model therefore does not capture the insertion order `querystring.stringify` writes keys in (the query of `get`, the body of `post`, the `search` and `fql` query, the OAuth dialog parameters), nor the key order of the `json` that `_end` delivers from `JSON.parse` or `url.parse(..).query`.
- `authorize`. It references the undefined identifier `gtaph`, so it throws before any request, and its only other logic is a network round trip.
- `setGraphUrl` / `getGraphUrl` as global mutable state. The base host is a parameter of every operation instead. Neither they nor `getOauthUrl` and `version` are reachable, because `module.exports = Graph` (lib/graph.js:250) replaces the exported object, so what is attached to `exports` (lines 35 and 253-274) is lost. `getOauthUrl` is modelled anyway.
- The `Graph` constructor and its `instanceof` trick. The client's token is passed to each operation instead.
- The `typeof data === 'function'` argument shuffling of `get` and `post`. Omitted data is passed as `Null`.
- Non-string tokens and non-string `del` paths. JavaScript would coerce these to strings while concatenating. The model takes the token as an optional string and the `del` path as a string.
- Fractional numbers and `NaN` in `Value`. Numbers are integers, and their truthiness is "non-zero".
- The `encoding: 'utf-8'` decoding itself, and UTF-16 indexing. JavaScript strings index UTF-16 code units, while a Dafny `string` is a sequence of Unicode scalar values. The model only compares characters with ASCII ones (`/`, `?`, `=`, `{`, `}`, `image`) and `indexOf` results with -1, so no behaviour depends on the difference. Positions would differ for text outside the Basic Multilingual Plane.

## Findings

| source | as written | input that shows it | evidently intended | confidence | as-written member | corrected member |
|---|---|---|---|---|---|---|
| lib/graph.js:211 | `del` calls `cleanUrl(graphUrl + url, token)`, and `cleanUrl` prepends `graphUrl` again | host `https://graph.facebook.com`, path `/me`, no token: URL `https://graph.facebook.com/https://graph.facebook.com/me` | `cleanUrl(url, token)`, the same URL `post` would use | high (not executed) | `Dispatcher.DelDoublesHost` | `Dispatcher.DelIntendedMatchesPost` |
| lib/graph.js:203-215 | the comment describes deletion as "a post call, along with a method=delete param", but the options object has no body and no such parameter | any call, e.g. path `/me`: a `POST` without a body | a `POST` carrying `method=delete` | medium (not executed) | `Dispatcher.DelOmitsMethodOverride` | `Dispatcher.DelIntended` |
