/**
 * The HTTP resource factory (`getResource`, `postResource`), the error
 * normaliser `processError` and the endpoint templates of one registry
 * server.
 *
 * The transport is a parameter: `Http` gives, for a request, either the parsed
 * body of a successful response or the body of a failed one (Undefined when a
 * timeout or network failure left no body). Each operation returns, beside its
 * result, the trace of external calls it made, so that "this step never ran"
 * is a statement about the trace.
 */
module Resources {
  import opened Values
  import opened Templater

  /** The rejection value when the error body carries no message. */
  const UnknownError: string := "Unknown error from ucoin node"

  datatype Verb = GetVerb | PostVerb

  /** One HTTP request: verb, resolved URI, `config.params`, and the posted body. */
  datatype Request = Request(verb: Verb, uri: string, query: Fields, body: Option<Value>)

  /** An external call made by the client. */
  datatype Call =
    | HttpCall(request: Request)
    | SignCall(message: Value)
    | HashCall(text: string)

  /** The outcome of an operation and the external calls it made, in order. */
  datatype Run<+T> = Run(result: Result<T, Value>, calls: seq<Call>)

  /** The transport: the server's answer to a request. */
  type Http = Request -> Result<Value, Value>

  /**
   * `processError`: the value a failed request rejects with. A body whose
   * `message` is truthy is passed on as it is; anything else (no body, a
   * string, an object without a message or with an empty one) becomes the
   * generic error string.
   */
  function ProcessError(data: Value): (r: Value)
    ensures Truthy(Member(data, "message")) ==> r == data
    ensures !Truthy(Member(data, "message")) ==> r == Str(UnknownError)
    ensures r == Str(UnknownError) || (r.Obj? && Truthy(Get(r.fields, "message")))
  {
    if Truthy(data) && Truthy(Member(data, "message")) then data else Str(UnknownError)
  }

  /** The request `getResource(template)(params)` sends. */
  function GetRequest(template: string, params: Params): Request
  {
    var p := PrepareSpec(template, params);
    Request(GetVerb, p.uri, p.query, None)
  }

  /** The request `postResource(template)(data, params)` sends. */
  function PostRequest(template: string, data: Value, params: Params): Request
  {
    var p := PrepareSpec(template, params);
    Request(PostVerb, p.uri, p.query, Some(data))
  }

  /** How a reply settles the promise: resolved with the body, or rejected through `processError`. */
  function Settle(reply: Result<Value, Value>): (r: Result<Value, Value>)
    ensures reply.Success? ==> r == reply
    ensures reply.Failure? ==> r == Failure(ProcessError(reply.error))
  {
    match reply
    case Success(data) => Success(data)
    case Failure(data) => Failure(ProcessError(data))
  }

  /** `getResource(template)(params)`: exactly one GET, with the prepared URI and query. */
  function GetResource(template: string, params: Params, http: Http): (r: Run<Value>)
    ensures r.calls == [HttpCall(Request(GetVerb, PrepareSpec(template, params).uri,
                                         PrepareSpec(template, params).query, None))]
    ensures r.result == Settle(http(r.calls[0].request))
  {
    var request := GetRequest(template, params);
    Run(Settle(http(request)), [HttpCall(request)])
  }

  /** `postResource(template)(data, params)`: exactly one POST of `data`, with the prepared URI and query. */
  function PostResource(template: string, data: Value, params: Params, http: Http): (r: Run<Value>)
    ensures r.calls == [HttpCall(Request(PostVerb, PrepareSpec(template, params).uri,
                                         PrepareSpec(template, params).query, Some(data)))]
    ensures r.result == Settle(http(r.calls[0].request))
  {
    var request := PostRequest(template, data, params);
    Run(Settle(http(request)), [HttpCall(request)])
  }

  // The endpoint templates of one server. Placeholders are written as separate
  // pieces so that where they stand is plain; each template is the same text
  // as one literal.

  function ServerRoot(server: string): string { "http://" + server }

  function AuthUri(server: string): string { ServerRoot(server) + "/auth" }

  function CategorySearchUri(server: string): string
  {
    ServerRoot(server) + "/registry/category/_search?pretty&from=0&size=1000"
  }

  function RecordUri(server: string): string { ServerRoot(server) + "/registry/record" }

  function RecordByIdUri(server: string): string { ServerRoot(server) + "/registry/record/" + ":id" }

  function RecordSearchTextUri(server: string): string
  {
    ServerRoot(server) + "/registry/record/_search?q=:search"
  }

  function AvatarUri(server: string): string
  {
    ServerRoot(server) + "/registry/record/_search?q=issuer:" + ":issuer" + "+category:" + ":category"
      + "&size=1&_source=pictures.src"
  }

  function CurrencyByIdUri(server: string): string { ServerRoot(server) + "/currency/simple/:id/_source" }
}
