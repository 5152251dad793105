/** The single request path of weather/services.py: building a request,
    the upstream reply (an oracle standing for `requests.get`,
    `raise_for_status` and `response.json`), and the translation of the
    exceptions of the `requests` library into the error taxonomy. */
module Transport {
  import opened Wrappers
  import opened Text
  import opened Except
  import opened Exceptions

  const BaseUrl: string := "https://api.openweathermap.org/"
  const RequestTimeout: int := 5

  datatype Request = Request(url: string, params: map<string, string>, timeout: int)

  /** `requests.get(BASE_URL + endpoint, params=params, timeout=TIMEOUT)`. */
  function BuildRequest(endpoint: string, params: map<string, string>): (r: Request)
    ensures BaseUrl <= r.url && r.url[|BaseUrl|..] == endpoint
    ensures r.params == params && r.timeout == 5
  {
    Request(BaseUrl + endpoint, params, RequestTimeout)
  }

  /** Exceptions the `requests` library raises on the request path.
      ConnectTimeout derives from both ConnectionError and Timeout;
      ProxyError and SSLError derive from ConnectionError; ReadTimeout
      from Timeout; anything else (an invalid JSON body, an invalid URL,
      ...) is OtherException. */
  datatype RequestFailure =
    | Timeout
    | ReadTimeout
    | ConnectTimeout
    | ConnectionError
    | ProxyError
    | SSLError
    | HttpError(status: int, body: string)
    | OtherException(description: string)

  /** What the upstream call produced: the decoded body or an exception. */
  datatype Reply<+T> = Answered(payload: T) | Failed(failure: RequestFailure)

  predicate IsTimeout(f: RequestFailure) {
    f.Timeout? || f.ReadTimeout? || f.ConnectTimeout?
  }

  predicate IsConnectionError(f: RequestFailure) {
    f.ConnectionError? || f.ConnectTimeout? || f.ProxyError? || f.SSLError?
  }

  /** The classes named by the `except` clauses of handle_exceptions. */
  datatype CatchClass = TimeoutClass | ConnectionErrorClass | HttpErrorClass | ExceptionClass

  predicate Catches(cls: CatchClass, f: RequestFailure) {
    match cls
    case TimeoutClass => IsTimeout(f)
    case ConnectionErrorClass => IsConnectionError(f)
    case HttpErrorClass => f.HttpError?
    case ExceptionClass => true
  }

  /** The clauses of handle_exceptions, in source order. */
  const HandlerClauses: seq<CatchClass> :=
    [TimeoutClass, ConnectionErrorClass, HttpErrorClass, ExceptionClass]

  /** handle_exceptions: the exception the wrapper raises in place of `f`. */
  function TranslateFailure(f: RequestFailure): (e: ApiException)
    ensures e.cls == WeatherApiTimeoutError <==> IsTimeout(f)
    ensures e.cls == WeatherApiConnectionError <==> IsConnectionError(f) && !IsTimeout(f)
    ensures e.cls == WeatherApiInvalidRequestError <==> f.HttpError?
    ensures e.cls == WeatherApiError <==>
              !IsTimeout(f) && !IsConnectionError(f) && !f.HttpError?
    ensures e.cls != WeatherApiNoLocationsError
    ensures e.cls == WeatherApiTimeoutError ==> e.message == "Service timeout"
    ensures e.cls == WeatherApiConnectionError ==> e.message == "Network problem"
    ensures f.HttpError? ==> e.message == "API error: " + IntToString(f.status)
    ensures e.cls == WeatherApiError ==> e.message == "Internal service error"
  {
    match FirstMatch(HandlerClauses, cls => Catches(cls, f))
    case Some(0) => ApiException(WeatherApiTimeoutError, "Service timeout")
    case Some(1) => ApiException(WeatherApiConnectionError, "Network problem")
    case Some(2) =>
      ApiException(WeatherApiInvalidRequestError, "API error: " + IntToString(f.status))
    case _ => ApiException(WeatherApiError, "Internal service error")
  }

  /** `_make_request` under its decorator: the payload, or the translated
      exception. */
  function MakeRequest<T>(reply: Reply<T>): (r: Result<T, ApiException>)
    ensures reply.Answered? <==> r.Success?
    ensures reply.Answered? ==> r.value == reply.payload
    ensures reply.Failed? ==> r.error == TranslateFailure(reply.failure)
  {
    match reply
    case Answered(p) => Success(p)
    case Failed(f) => Failure(TranslateFailure(f))
  }

  /** Timeout is tested before ConnectionError, so a connect timeout,
      which is both, is reported as a timeout. */
  lemma ConnectTimeoutIsTimeout()
    ensures TranslateFailure(ConnectTimeout).cls == WeatherApiTimeoutError
  {
  }

  /** The status code of an HTTP error can be read back from the message. */
  lemma HttpStatusInMessage(status: int, body: string)
    ensures var m := TranslateFailure(HttpError(status, body)).message;
            |m| > 11 && m[..11] == "API error: " && ParseInt(m[11..]) == Some(status)
  {
    var m := TranslateFailure(HttpError(status, body)).message;
    assert m[11..] == IntToString(status);
    IntToStringRoundTrip(status);
  }
}
