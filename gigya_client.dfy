/**
 * The consent-authority client `gigya` (index.js:158-173): one HTTP call to
 * the configured host, the JSON body parsed, and an error envelope turned
 * into a thrown error.
 *
 * The network and the authority are outside the model: an `Authority`
 * object stands for both, answering each request through its fixed
 * `respond` function and keeping a ghost log of the requests it received.
 */
module GigyaClient {
  import opened JsValue

  datatype Verb = Get | Post

  /** What goes over the wire: method, full URL, and the body when there is one. */
  datatype AuthorityRequest = AuthorityRequest(verb: Verb, url: string, payload: Option<string>)

  /** What the transport delivers: the parsed JSON body, or a failure (no connection, a body that is not JSON). */
  datatype Transport = Received(json: Value) | Unreachable

  /** `${json.error}: ${json.message}`. */
  function ErrorMessage(json: Value): string
    requires !IsNullish(json)
  {
    ToJsString(Prop(json, "error")) + ": " + ToJsString(Prop(json, "message"))
  }

  /**
   * `json.hasOwnProperty('error')` can be called: the body is not null and
   * no own member named `hasOwnProperty` (never a function in parsed JSON)
   * hides the inherited method.
   */
  predicate CanAskOwnership(json: Value) {
    !IsNullish(json) && !HasOwn(json, "hasOwnProperty")
  }

  /** Building `${json.error}: ${json.message}` does not throw. */
  predicate MessageBuildable(json: Value)
    requires !IsNullish(json)
  {
    Stringifiable(Prop(json, "error")) && Stringifiable(Prop(json, "message"))
  }

  /**
   * The check after parsing: a body with an own `error` property is thrown
   * as an error carrying the authority's code and message; any other body is
   * handed back as it is. Asking a null body, or a body whose own member
   * hides hasOwnProperty, throws a TypeError, and so does building a message
   * from members String() cannot convert.
   */
  function CheckEnvelope(json: Value): (r: Result<Value, Exception>)
    ensures r.Ok? <==> CanAskOwnership(json) && !HasOwn(json, "error")
    ensures r.Ok? ==> r.value == json
    ensures CanAskOwnership(json) && HasOwn(json, "error") && MessageBuildable(json) ==>
              r == Err(Error(ErrorMessage(json)))
    ensures r.Err? && r.error != TypeError ==> !IsNullish(json) && r.error == Error(ErrorMessage(json))
    ensures CanAskOwnership(json) && HasOwn(json, "error") && !MessageBuildable(json) ==> r == Err(TypeError)
    ensures !CanAskOwnership(json) ==> r == Err(TypeError)
  {
    if IsNullish(json) then Err(TypeError)
    else if HasOwn(json, "hasOwnProperty") then Err(TypeError)
    else if !HasOwn(json, "error") then Ok(json)
    else if !MessageBuildable(json) then Err(TypeError)
    else Err(Error(ErrorMessage(json)))
  }

  /** What `gigya` resolves to, or throws, given what the transport delivered. */
  function Interpret(t: Transport): (r: Result<Value, Exception>)
    ensures r.Ok? <==> t.Received? && CanAskOwnership(t.json) && !HasOwn(t.json, "error")
    ensures r.Ok? ==> r.value == t.json
    ensures t.Unreachable? ==> r == Err(FetchError)
  {
    match t
    case Unreachable => Err(FetchError)
    case Received(json) => CheckEnvelope(json)
  }

  class Authority {
    /**
     * The answer to each request, as the authority and the network give it.
     * It is fixed for the object's lifetime, so a sequence of requests
     * handled with one `Authority` assumes a gateway whose answers never
     * change (a stored consent does not alter later profile answers); the
     * lemmas over many requests give each request its own answers instead.
     */
    const respond: AuthorityRequest -> Transport
    /** Every request sent, in order. */
    ghost var log: seq<AuthorityRequest>

    constructor (respond: AuthorityRequest -> Transport)
      ensures this.respond == respond && log == []
    {
      this.respond := respond;
      log := [];
    }

    /** `fetch(request.url, ...)` followed by `.json()`. */
    method Fetch(request: AuthorityRequest) returns (t: Transport)
      modifies this`log
      ensures log == old(log) + [request]
      ensures t == respond(request)
    {
      log := log + [request];
      t := respond(request);
    }
  }

  /**
   * `gigya(url, opts)`: one request to `host + url` with the method and body
   * of `opts` (GET and no body when `opts` is empty); the result is the
   * parsed body, or the exception it throws.
   */
  method Gigya(authority: Authority, host: string, url: string, verb: Verb, payload: Option<string>)
    returns (r: Result<Value, Exception>)
    modifies authority`log
    ensures authority.log == old(authority.log) + [AuthorityRequest(verb, host + url, payload)]
    ensures r == Interpret(authority.respond(AuthorityRequest(verb, host + url, payload)))
  {
    var t := authority.Fetch(AuthorityRequest(verb, host + url, payload));
    if t.Unreachable? {
      return Err(FetchError);
    }
    var json := t.json;
    if IsNullish(json) || HasOwn(json, "hasOwnProperty") {
      return Err(TypeError);
    }
    if !HasOwn(json, "error") {
      return Ok(json);
    }
    if !MessageBuildable(json) {
      return Err(TypeError);
    }
    return Err(Error(ErrorMessage(json)));
  }

  /** The error envelope `{error: "invalid_key", message: "bad key"}` becomes a thrown "invalid_key: bad key". */
  lemma InvalidKeyEnvelope()
    ensures Interpret(Received(Obj(map["error" := Str("invalid_key"), "message" := Str("bad key")])))
            == Err(Error("invalid_key: bad key"))
  {
    var json := Obj(map["error" := Str("invalid_key"), "message" := Str("bad key")]);
    assert Prop(json, "error") == Str("invalid_key") && Prop(json, "message") == Str("bad key");
    assert HasOwn(json, "error") && !HasOwn(json, "hasOwnProperty") && MessageBuildable(json);
    assert ErrorMessage(json) == "invalid_key" + ": " + "bad key" == "invalid_key: bad key";
    assert CheckEnvelope(json) == Err(Error(ErrorMessage(json)));
  }

  /** A body whose `error` member is present but null still counts as an error envelope. */
  lemma NullErrorMemberThrows(message: string)
    ensures Interpret(Received(Obj(map["error" := Null, "message" := Str(message)])))
            == Err(Error("null: " + message))
  {
    var json := Obj(map["error" := Null, "message" := Str(message)]);
    assert HasOwn(json, "error") && !HasOwn(json, "hasOwnProperty");
    assert Prop(json, "error") == Null && Prop(json, "message") == Str(message);
    assert ErrorMessage(json) == "null" + ": " + message == "null: " + message;
    assert CheckEnvelope(json) == Err(Error(ErrorMessage(json)));
  }

  /**
   * An own `hasOwnProperty` member hides the method index.js:169 calls, so
   * even a body with no `error` member throws a TypeError.
   */
  lemma ShadowedHasOwnPropertyThrows()
    ensures Interpret(Received(Obj(map["hasOwnProperty" := Bool(true), "isLoginEnabled" := Bool(true)])))
            == Err(TypeError)
  {
    var json := Obj(map["hasOwnProperty" := Bool(true), "isLoginEnabled" := Bool(true)]);
    assert HasOwn(json, "hasOwnProperty");
  }

  /** An error member that String() cannot convert makes building the message throw a TypeError instead. */
  lemma UnconvertibleErrorMemberThrowsTypeError()
    ensures Interpret(Received(Obj(map["error" := Obj(map["toString" := Num(0)])]))) == Err(TypeError)
  {
    var json := Obj(map["error" := Obj(map["toString" := Num(0)])]);
    assert HasOwn(json, "error") && !HasOwn(json, "hasOwnProperty");
    assert Prop(json, "error") == Obj(map["toString" := Num(0)]);
    assert !MessageBuildable(json);
  }
}
