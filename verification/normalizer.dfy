/**
 Response handling: the step of `_request` that runs once the transport has
 answered, and `_end`, which turns a body into the `(err, json)` pair handed
 to the caller's callback.
 */
module Normalizer {
  import opened JsValues
  import opened Strings

  const TransportErrorMessage := "Error processing request"
  const ParseErrorMessage := "Error parsing json"

  /** The arguments `callback(err, json)` receives. Both may be set at once. */
  datatype Reply = Reply(err: Value, json: Value)

  /** What the transport hands back: its error argument, the `content-type` and
      `location` response headers (the former possibly missing), and the body. */
  datatype Response = Response(err: Value, contentType: Option<string>, location: Value, body: Value)

  /** The end of a request: the callback is called, or the response callback
      throws an exception nobody catches. */
  datatype Delivery = Delivered(reply: Reply) | Uncaught(exception: Value)

  /** The body that replaces an image response: `{ image: true, location }`. */
  function ImageDescriptor(location: Value): (d: Value)
    ensures Truthy(d) && Prop(d, "image") == Bool(true) && Prop(d, "location") == location
    ensures Prop(d, "error") == Undefined
  {
    Obj(map["image" := Bool(true), "location" := location])
  }

  /** The rewriting of a brace-less body before query decoding: a body without
      `=` becomes the value of a `data` key, and a `?` is put in front. */
  function QueryInput(body: string): (q: string)
    ensures |q| > 0 && q[0] == '?' && Contains(q, "=")
    ensures !Contains(body, "=") ==> q == "?data=" + body
    ensures Contains(body, "=") ==> q == body || q == "?" + body
    ensures Contains(body, "=") ==> (q == body <==> body[0] == '?')
  {
    var keyed := if IndexOf(body, "=") == -1 then "data=" + body else body;
    assert Contains(keyed, "=") by {
      if IndexOf(body, "=") == -1 {
        assert IsAt(keyed, "=", 4);
      }
    }
    if CharAt(keyed, 0) != "?" then
      ContainsPrefixed("?", keyed, "=");
      "?" + keyed
    else
      keyed
  }

  /** How `_end` reads a body, stated with substring containment. */
  datatype BodyKind =
    | Structured   // a truthy non-string: already the result
    | Unreadable   // a falsy non-string: reading it as a string throws
    | JsonText     // a string holding both `{` and `}`
    | QueryText    // any other string

  ghost function KindOf(body: Value): BodyKind
  {
    if !body.Str? then (if Truthy(body) then Structured else Unreadable)
    else if Contains(body.s, "{") && Contains(body.s, "}") then JsonText
    else QueryText
  }

  /** The error `_end` reports when reading the body threw: a failed `JSON.parse`,
      or a method call on a falsy non-string body. */
  ghost predicate ReadFailed(body: Value, lib: Natives)
  {
    match KindOf(body)
    case Unreadable => true
    case JsonText => lib.jsonParse(body.s).Failure?
    case _ => false
  }

  /** `_end(body, callback)`: the pair given to the callback. */
  function End(body: Value, lib: Natives): (r: Reply)
    ensures KindOf(body) == Structured ==> r.json == body
    ensures KindOf(body) == Unreadable ==> r == Reply(WrappedError(ParseErrorMessage, TypeError), body)
    ensures KindOf(body) == JsonText && lib.jsonParse(body.s).Failure? ==>
      r == Reply(WrappedError(ParseErrorMessage, lib.jsonParse(body.s).error), Null)
    ensures KindOf(body) == JsonText && lib.jsonParse(body.s).Success? ==>
      r.json == lib.jsonParse(body.s).value
    ensures KindOf(body) == QueryText ==> r.json == Obj(lib.queryOf(QueryInput(body.s)))
    ensures !ReadFailed(body, lib) ==>
      r.err == (if Truthy(r.json) && Truthy(Prop(r.json, "error")) then Prop(r.json, "error") else Null)
  {
    var json := if body.Str? then Null else body;
    var read: Reply :=
      if Truthy(json) then Reply(Null, json)
      else if !body.Str? then Reply(WrappedError(ParseErrorMessage, TypeError), json)
      else if IndexOf(body.s, "{") != -1 && IndexOf(body.s, "}") != -1 then
        match lib.jsonParse(body.s)
        case Success(v) => Reply(Null, v)
        case Failure(e) => Reply(WrappedError(ParseErrorMessage, e), json)
      else
        Reply(Null, Obj(lib.queryOf(QueryInput(body.s))));
    if !Truthy(read.err) && Truthy(read.json) && Truthy(Prop(read.json, "error")) then
      Reply(Prop(read.json, "error"), read.json)
    else
      read
  }

  /** The response callback of `_request`: a transport error is wrapped and
      `_end` is never reached; otherwise an image content type replaces the body
      with an image descriptor before `_end` runs. A missing content-type header
      makes the callback throw. */
  function Receive(res: Response, lib: Natives): (d: Delivery)
    ensures Truthy(res.err) ==> d == Delivered(Reply(WrappedError(TransportErrorMessage, res.err), Null))
    ensures !Truthy(res.err) && res.contentType.None? ==> d == Uncaught(TypeError)
    ensures !Truthy(res.err) && res.contentType.Some? && Contains(res.contentType.value, "image") ==>
      d == Delivered(End(ImageDescriptor(res.location), lib))
    ensures !Truthy(res.err) && res.contentType.Some? && !Contains(res.contentType.value, "image") ==>
      d == Delivered(End(res.body, lib))
  {
    if Truthy(res.err) then
      Delivered(Reply(WrappedError(TransportErrorMessage, res.err), Null))
    else if res.contentType.None? then
      Uncaught(TypeError)
    else
      var body := if IndexOf(res.contentType.value, "image") != -1 then ImageDescriptor(res.location) else res.body;
      Delivered(End(body, lib))
  }

  /** The error is set exactly when reading the body failed or the result
      carries a truthy `error` field; a read failure is never overwritten. */
  lemma EndErrorIff(body: Value, lib: Natives)
    ensures Truthy(End(body, lib).err)
        <==> ReadFailed(body, lib) || (Truthy(End(body, lib).json) && Truthy(Prop(End(body, lib).json, "error")))
    ensures ReadFailed(body, lib) ==> End(body, lib).err.Obj? && End(body, lib).err.fields["message"] == Str(ParseErrorMessage)
  {
  }

  /** When the error is promoted from the result's `error` field, the result
      itself is still delivered: error and result are not exclusive. */
  lemma EndKeepsJsonOnDomainError(body: Value, lib: Natives)
    requires !ReadFailed(body, lib)
    requires Truthy(End(body, lib).json) && Truthy(Prop(End(body, lib).json, "error"))
    ensures Truthy(End(body, lib).err) && Truthy(End(body, lib).json)
    ensures End(body, lib).err == Prop(End(body, lib).json, "error")
  {
  }

  /** A bare literal such as `true` is decoded from `?data=true`. */
  lemma QueryInputOfBareLiteral()
    ensures QueryInput("true") == "?data=true"
  {
    ContainsChar("true", '=');
  }

  /** A body that already holds `key=value` pairs only gains the leading `?`. */
  lemma QueryInputOfPairs()
    ensures QueryInput("foo=bar&baz=qux") == "?foo=bar&baz=qux"
  {
    assert IsAt("foo=bar&baz=qux", "=", 3);
  }

  /** Rewriting an already rewritten body changes nothing. */
  lemma QueryInputIdempotent(body: string)
    ensures QueryInput(QueryInput(body)) == QueryInput(body)
  {
  }

  /** Whatever the body, an image response reaches the callback as the image
      descriptor with no error. */
  lemma ImageIgnoresBody(res: Response, lib: Natives)
    requires !Truthy(res.err) && res.contentType.Some? && Contains(res.contentType.value, "image")
    ensures Receive(res, lib) == Delivered(Reply(Null, ImageDescriptor(res.location)))
  {
  }
}
