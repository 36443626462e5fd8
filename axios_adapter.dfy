/** `AxiosAdapter`: requests through the shared axios client, whose request
    interceptor injects the bearer token and whose response interceptor
    normalises every failure into a `CustomApiError`; `execute` turns the
    outcome into an envelope. The network and axios itself are represented
    by the `Transport` outcome a call is given. */
module AxiosAdapter {
  import opened Js
  import opened Json
  import opened ApiErrorType
  import opened WebHeaders
  import opened HttpInterface

  /** How a request ended: a response with its status and parsed body, a
      request sent without a response, or a request that was never sent. */
  datatype Transport = Received(status: nat, data: Json) | NoReply | SetupFailed(message: string)

  /** The `AxiosError` the response interceptor receives: with a response,
      with only a request, or with neither. */
  datatype AxiosError = ResponseError(status: nat, data: Json) | RequestError | SetupError(message: string)

  /** How the client's promise settles. */
  datatype Settlement = Resolved(data: Json) | Rejected(error: AxiosError)

  /** axios's default `validateStatus`. */
  predicate IsSuccessStatus(status: nat)
    ensures IsSuccessStatus(status) <==> |NatToString(status)| == 3 && NatToString(status)[0] == '2'
  {
    SuccessClass(status);
    200 <= status < 300
  }

  /** How the client's promise settles for a transport outcome; the response
      interceptor's success handler passes a response through unchanged. */
  function Dispatch(t: Transport): (s: Settlement)
    ensures s.Resolved? <==> t.Received? && IsSuccessStatus(t.status)
    ensures s.Resolved? ==> s.data == t.data
    ensures t.Received? && !IsSuccessStatus(t.status) ==> s == Rejected(ResponseError(t.status, t.data))
    ensures t.NoReply? ==> s == Rejected(RequestError)
    ensures t.SetupFailed? ==> s == Rejected(SetupError(t.message))
  {
    match t
    case Received(status, data) =>
      if IsSuccessStatus(status) then Resolved(data) else Rejected(ResponseError(status, data))
    case NoReply => Rejected(RequestError)
    case SetupFailed(message) => Rejected(SetupError(message))
  }

  // ---------------------------------------------------------------------
  // Response interceptor: error normalisation

  const NetworkErrorMessage := "No response from server. Check network connection."
  const NetworkErrorCode := "NETWORK_ERROR"
  const SetupErrorPrefix := "Request setup failed: "
  const SetupErrorCode := "REQUEST_SETUP_ERROR"

  /** A response whose body names a server error. */
  predicate IsServerError(e: AxiosError) {
    e.ResponseError? && AsApiErrorResponse(e.data).Some?
  }

  /** A response without a recognised error body. */
  predicate IsHttpStatusError(e: AxiosError) {
    e.ResponseError? && AsApiErrorResponse(e.data).None?
  }

  /** The response interceptor's rejection handler. */
  function NormalizeError(e: AxiosError): (err: CustomApiError)
    ensures err.name == ErrorName
    ensures IsServerError(e) ==>
              var body := AsApiErrorResponse(e.data).value;
              err.message == body.message && err.code == body.code && err.errorData == Some(e.data)
    ensures IsHttpStatusError(e) ==>
              err.message == HttpErrorMessage(e.status) && err.code == HttpErrorCode(e.status) &&
              err.errorData == Some(e.data)
    ensures e.RequestError? ==>
              err.message == NetworkErrorMessage && err.code == NetworkErrorCode && err.errorData == None
    ensures e.SetupError? ==>
              err.message == SetupErrorPrefix + e.message && err.code == SetupErrorCode && err.errorData == None
  {
    match e
    case ResponseError(status, data) =>
      var body := AsApiErrorResponse(data);
      if body.Some? then NewCustomApiError(body.value.message, Some(body.value.code), Some(data))
      else NewCustomApiError(HttpErrorMessage(status), Some(HttpErrorCode(status)), Some(data))
    case RequestError => NewCustomApiError(NetworkErrorMessage, Some(NetworkErrorCode), None)
    case SetupError(message) => NewCustomApiError(SetupErrorPrefix + message, Some(SetupErrorCode), None)
  }

  function Indicator(b: bool): (n: nat)
    ensures n <= 1
  {
    if b then 1 else 0
  }

  /** Every rejection falls in exactly one of the four branches. */
  lemma ErrorBranchesPartition(e: AxiosError)
    ensures Indicator(IsServerError(e)) + Indicator(IsHttpStatusError(e))
            + Indicator(e.RequestError?) + Indicator(e.SetupError?) == 1
  {
  }

  /** A synthesised code names the response's status, which can be read back. */
  lemma HttpStatusErrorNamesStatus(e: AxiosError)
    requires IsHttpStatusError(e)
    ensures StatusOfHttpErrorCode(NormalizeError(e).code) == Some(e.status)
  {
    HttpErrorCodeRoundTrip(e.status);
  }

  // ---------------------------------------------------------------------
  // execute

  /** `execute(request)`: the resolved body, or the normalised error caught. */
  function Execute(t: Transport): (r: HttpAdapterResponse<Json>)
    ensures r.isOk <==> t.Received? && IsSuccessStatus(t.status)
    ensures r.isOk ==> r.error == Null && r.data == Value(t.data)
    ensures !r.isOk ==> r.data == Null && r.error == Value(NormalizeError(Dispatch(t).error))
    ensures Unmixed(r)
  {
    match Dispatch(t)
    case Resolved(data) => HttpAdapterResponse(true, Null, Value(data))
    case Rejected(error) => HttpAdapterResponse(false, Value(NormalizeError(error)), Null)
  }

  /** A request that got no response fails with `NETWORK_ERROR`. */
  lemma NoReplyIsNetworkError()
    ensures var r := Execute(NoReply);
            !r.isOk && r.error.Value? && r.error.value.code == NetworkErrorCode && r.error.value.errorData == None
  {
  }

  // ---------------------------------------------------------------------
  // Request configuration per verb

  /** `headersConfig(options)`: the headers only when they are a plain record. */
  function HeadersConfig<T>(options: Option<HttpAdapterOptions<T>>): (r: Option<Record>)
    ensures r.Some? <==> HeadersOf(options).Some? && HeadersOf(options).value.RecordInit?
    ensures r.Some? ==> r.value == HeadersOf(options).value.entries
  {
    var h := HeadersOf(options);
    if h.Some? && !(h.value.PairsInit? || h.value.HeadersInstance?) then Some(h.value.entries) else None
  }

  /** `{ params: options?.params, headers: this.headersConfig(options) }`. */
  datatype RequestConfig = RequestConfig(params: Option<Record>, headers: Option<Record>)

  /** The config every verb builds: `{ params: options?.params, headers }`,
      where only a plain record of headers is passed on. */
  function ConfigFor<T>(options: Option<HttpAdapterOptions<T>>): (c: RequestConfig)
    ensures c.params == ParamsOf(options)
    ensures c.headers.Some? <==> HeadersOf(options).Some? && HeadersOf(options).value.RecordInit?
    ensures c.headers.Some? ==> c.headers.value == HeadersOf(options).value.entries
  {
    RequestConfig(ParamsOf(options), HeadersConfig(options))
  }

  /** The call made on the axios client: verb, URL, body, config. */
  datatype ClientCall<T> = ClientCall(verb: Verb, url: string, body: Option<T>, config: RequestConfig)

  /** One request: the client call made and the envelope returned. */
  datatype Exchange<T> = Exchange(call: ClientCall<T>, response: HttpAdapterResponse<Json>)

  function Get<T>(url: string, options: Option<HttpAdapterOptions<T>>, t: Transport): (x: Exchange<T>)
    ensures x.call.verb == GET && x.call.url == url && x.call.body == None
    ensures x.call.config.params == ParamsOf(options) && x.call.config.headers == HeadersConfig(options)
    ensures x.response == Execute(t)
  {
    Exchange(ClientCall(GET, url, None, ConfigFor(options)), Execute(t))
  }

  function Post<T>(url: string, options: Option<HttpAdapterOptions<T>>, t: Transport): (x: Exchange<T>)
    ensures x.call.verb == POST && x.call.url == url && x.call.body == DataOf(options)
    ensures x.call.config.params == ParamsOf(options) && x.call.config.headers == HeadersConfig(options)
    ensures x.response == Execute(t)
  {
    Exchange(ClientCall(POST, url, DataOf(options), ConfigFor(options)), Execute(t))
  }

  function Put<T>(url: string, options: Option<HttpAdapterOptions<T>>, t: Transport): (x: Exchange<T>)
    ensures x.call.verb == PUT && x.call.url == url && x.call.body == DataOf(options)
    ensures x.call.config.params == ParamsOf(options) && x.call.config.headers == HeadersConfig(options)
    ensures x.response == Execute(t)
  {
    Exchange(ClientCall(PUT, url, DataOf(options), ConfigFor(options)), Execute(t))
  }

  function Delete<T>(url: string, options: Option<HttpAdapterOptions<T>>, t: Transport): (x: Exchange<T>)
    ensures x.call.verb == DELETE && x.call.url == url && x.call.body == None
    ensures x.call.config.params == ParamsOf(options) && x.call.config.headers == HeadersConfig(options)
    ensures x.response == Execute(t)
  {
    Exchange(ClientCall(DELETE, url, None, ConfigFor(options)), Execute(t))
  }

  // ---------------------------------------------------------------------
  // Request interceptor: token injection

  const AuthorizationHeader := "Authorization"

  /** The headers after the interceptor: `Authorization: Bearer <token>` when
      the token is non-empty, every other header as it was. */
  function WithBearer(headers: map<string, string>, token: Option<string>): (r: map<string, string>)
    ensures IsTruthy(token) ==> AuthorizationHeader in r && r[AuthorizationHeader] == "Bearer " + token.value
    ensures IsTruthy(token) ==> r.Keys == headers.Keys + {AuthorizationHeader}
    ensures forall k :: k in headers && k != AuthorizationHeader ==> k in r && r[k] == headers[k]
    ensures !IsTruthy(token) ==> r == headers
  {
    if IsTruthy(token) then headers[AuthorizationHeader := "Bearer " + token.value] else headers
  }

  /** The request config the interceptor receives; its headers are updated in place. */
  class InternalRequestConfig {
    var headers: map<string, string>

    constructor (headers: map<string, string>)
      ensures this.headers == headers
    {
      this.headers := headers;
    }
  }

  /** The request interceptor: sets `config.headers.Authorization` and hands the
      same config on. */
  method InterceptRequest(config: InternalRequestConfig, token: Option<string>) returns (r: InternalRequestConfig)
    modifies config
    ensures r == config
    ensures config.headers == WithBearer(old(config.headers), token)
  {
    if IsTruthy(token) {
      config.headers := config.headers[AuthorizationHeader := "Bearer " + token.value];
    }
    r := config;
  }
}
