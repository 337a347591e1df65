/** `apiRequest`: the request it builds from the caller's path and options,
    and how it turns the response into a result or a thrown error. */
module ApiService {
  import opened Outcomes

  const ContentTypeHeader: string := "Content-Type"
  const JsonContentType: string := "application/json"
  const IncludeCredentials: string := "include"
  const DefaultErrorMessage: string := "Error en la solicitud"

  /** The request options a caller passes (all optional); `headers` is a
      plain header object, empty when the caller passes none, and `signal`
      identifies the caller's abort signal. */
  datatype RequestInit = RequestInit(
    httpMethod: Option<string>,
    body: Option<string>,
    signal: Option<nat>,
    credentials: Option<string>,
    headers: map<string, string>)

  /** The JSON body of a response that is not OK, as `response.json()`
      leaves it: parsed, with the value of its `message` property when that
      is a string, or a parse failure. */
  datatype ErrorBody = ErrorJson(message: Option<string>) | Unparsable(thrown: Thrown)

  /** How the `fetch` call ends: an OK response whose body parsed, a
      response that is not OK, or a value thrown by `fetch` or by parsing an
      OK response's body. */
  datatype Response<+T> = Ok(body: T) | NotOk(errorBody: ErrorBody) | Threw(thrown: Thrown)

  /** The URL fetched: the configured base followed by the caller's path,
      with no slash added or removed. */
  function RequestUrl(base: string, url: string): (r: string)
    ensures |r| == |base| + |url| && r[..|base|] == base && r[|base|..] == url
  {
    base + url
  }

  /** The options passed to `fetch`: the caller's options, with
      `credentials` forced to "include" and the headers being a JSON
      content type merged under the caller's headers. */
  function BuildInit(options: RequestInit): (r: RequestInit)
    ensures r.credentials == Some(IncludeCredentials)
    ensures r.httpMethod == options.httpMethod && r.body == options.body && r.signal == options.signal
    ensures r.headers.Keys == options.headers.Keys + {ContentTypeHeader}
    ensures forall name :: name in options.headers ==> r.headers[name] == options.headers[name]
    ensures ContentTypeHeader !in options.headers ==> r.headers[ContentTypeHeader] == JsonContentType
  {
    options.(credentials := Some(IncludeCredentials),
             headers := map[ContentTypeHeader := JsonContentType] + options.headers)
  }

  /** The `||` in the error path: a missing or empty message is falsy. */
  predicate Truthy(message: Option<string>) {
    message.Some? && message.value != ""
  }

  /** The response handling of `apiRequest`: an OK body is returned as it
      is; a response that is not OK throws an `Error` carrying its body's
      message, or the default message when that is missing or empty; a body
      that does not parse, and anything `fetch` throws, is rethrown
      unchanged. */
  function Settle<T>(response: Response<T>): (r: Result<T, Thrown>)
    ensures r.Success? <==> response.Ok?
    ensures response.Ok? ==> r == Success(response.body)
    ensures response.Threw? ==> r == Failure(response.thrown)
    ensures response.NotOk? && response.errorBody.Unparsable? ==> r == Failure(response.errorBody.thrown)
    ensures response.NotOk? && response.errorBody.ErrorJson? ==>
              && r.Failure? && r.error.name == Some("Error")
              && r.error.message == Some(if Truthy(response.errorBody.message)
                                         then response.errorBody.message.value
                                         else DefaultErrorMessage)
              && r.error.message.value != ""
  {
    match response
    case Ok(body) => Success(body)
    case Threw(t) => Failure(t)
    case NotOk(Unparsable(t)) => Failure(t)
    case NotOk(ErrorJson(message)) =>
      Failure(ErrorObject(if Truthy(message) then message.value else DefaultErrorMessage))
  }

  /** `apiRequest(url, options)` with the network given as `respond`: the
      request sent is the built URL and options, and a result only comes
      from an OK response. */
  function ApiRequest<T>(base: string, url: string, options: RequestInit,
                         respond: (string, RequestInit) -> Response<T>): (r: Result<T, Thrown>)
    ensures var sent := respond(RequestUrl(base, url), BuildInit(options));
            (r.Success? <==> sent.Ok?) && (sent.Ok? ==> r.value == sent.body)
  {
    Settle(respond(RequestUrl(base, url), BuildInit(options)))
  }

  /** Two ways of writing the same address give different URLs: the base
      and the path are not normalised around the slash between them. */
  lemma NoSlashNormalisation()
    ensures RequestUrl("http://h/api/", "/x") == "http://h/api//x"
    ensures RequestUrl("http://h/api/", "/x") != RequestUrl("http://h/api", "/x")
  {
    assert |RequestUrl("http://h/api/", "/x")| == 15 && |RequestUrl("http://h/api", "/x")| == 14;
  }

  /** The caller's headers win on conflict: a caller that sets its own
      `Content-Type` gets its header object through unchanged. */
  lemma CallerContentTypeWins(options: RequestInit)
    requires ContentTypeHeader in options.headers
    ensures BuildInit(options).headers == options.headers
  {
    var h := BuildInit(options).headers;
    assert h.Keys == options.headers.Keys;
  }
}
