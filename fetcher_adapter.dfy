/** `FetcherAdapter`: requests through the platform `fetch`. Headers are
    built into a `Headers` object, the URL through `URL.searchParams`, and a
    response is settled per call: a non-ok response is thrown as a
    `CustomApiError`, an ok one returned as an envelope. What `fetch` and
    `response.json()` produce is the `FetchOutcome` a call is given. */
module FetcherAdapter {
  import opened Js
  import opened Json
  import opened ApiErrorType
  import opened WebHeaders
  import opened WebUrl
  import opened HttpInterface

  // ---------------------------------------------------------------------
  // Headers

  const ContentTypeHeader := "Content-Type"
  const JsonMediaType := "application/json"

  /** `{ "Content-Type": "application/json", ...customHeaders }`. */
  function HeaderLiteral(custom: Option<HeadersInit>): (r: Record)
    ensures DistinctKeys(r)
    ensures forall k :: HasKey(r, k) <==> k == ContentTypeHeader || HasKey(SpreadEntries(custom), k)
    ensures forall k :: LastValue(r, k) ==
              if HasKey(SpreadEntries(custom), k) then LastValue(SpreadEntries(custom), k)
              else if k == ContentTypeHeader then Some(JsonMediaType) else None
  {
    var base := [(ContentTypeHeader, JsonMediaType)];
    assert base[0].0 == ContentTypeHeader;
    assert forall k :: HasKey(base, k) <==> k == ContentTypeHeader;
    AssignAll(base, SpreadEntries(custom))
  }

  /** The headers `getHeaders(customHeaders)` builds, by lower-cased name: the
      literal above, then `Authorization: Bearer <token>` set over anything
      of that name when the token is non-empty. */
  function RequestHeaders(custom: Option<HeadersInit>, token: Option<string>): (h: HeaderMap)
    ensures IsTruthy(token) ==> AuthorizationKey in h && h[AuthorizationKey] == "Bearer " + token.value
  {
    var filled := FillHeaders(map[], HeaderLiteral(custom));
    if IsTruthy(token) then filled[AuthorizationKey := "Bearer " + token.value] else filled
  }

  /** A name whose every spelling among the custom entries is `k` holds
      `k`'s last custom value, or the JSON media type for an untouched
      `Content-Type`. */
  lemma {:induction false} LiteralHolds(custom: Option<HeadersInit>, k: string)
    requires var spread := SpreadEntries(custom);
             forall i :: 0 <= i < |spread| && ToLower(spread[i].0) == ToLower(k) ==> spread[i].0 == k
    requires ToLower(k) == ContentTypeKey ==> k == ContentTypeHeader
    requires HasKey(SpreadEntries(custom), k) || k == ContentTypeHeader
    ensures var spread := SpreadEntries(custom);
            var filled := FillHeaders(map[], HeaderLiteral(custom));
            ToLower(k) in filled &&
            filled[ToLower(k)] == if HasKey(spread, k) then LastValue(spread, k).value else JsonMediaType
  {
    var spread := SpreadEntries(custom);
    var base := [(ContentTypeHeader, JsonMediaType)];
    var lit := HeaderLiteral(custom);
    var n := ToLower(k);
    HeaderNamesLowered();
    assert DistinctKeys(base);
    assert base[0].0 == ContentTypeHeader;
    assert HasKey(lit, k);
    forall i | 0 <= i < |lit| && ToLower(lit[i].0) == n ensures lit[i].0 == k {
      assert HasKey(lit, lit[i].0);
      if HasKey(spread, lit[i].0) {
        var j :| 0 <= j < |spread| && spread[j].0 == lit[i].0;
        assert ToLower(spread[j].0) == n;
      } else {
        var j :| 0 <= j < |base| && base[j].0 == lit[i].0;
        assert lit[i].0 == ContentTypeHeader;
      }
    }
    FillHeadersSingle(map[], lit, n, k);
  }

  /** Without a custom header spelling `Content-Type`, the JSON default stays. */
  lemma ContentTypeDefault(custom: Option<HeadersInit>, token: Option<string>)
    requires var spread := SpreadEntries(custom);
             forall i :: 0 <= i < |spread| ==> ToLower(spread[i].0) != ContentTypeKey
    ensures var h := RequestHeaders(custom, token);
            ContentTypeKey in h && h[ContentTypeKey] == JsonMediaType
  {
    HeaderNamesLowered();
    var spread := SpreadEntries(custom);
    forall j | 0 <= j < |spread| ensures spread[j].0 != ContentTypeHeader {
      assert ToLower(spread[j].0) != ContentTypeKey;
    }
    LiteralHolds(custom, ContentTypeHeader);
  }

  /** A record's `Content-Type` overrides the default. */
  lemma ContentTypeOverride(entries: Record, token: Option<string>)
    requires HasKey(entries, ContentTypeHeader)
    requires forall i :: 0 <= i < |entries| && ToLower(entries[i].0) == ContentTypeKey ==> entries[i].0 == ContentTypeHeader
    ensures var h := RequestHeaders(Some(RecordInit(entries)), token);
            ContentTypeKey in h && h[ContentTypeKey] == LastValue(entries, ContentTypeHeader).value
  {
    var custom := Some(RecordInit(entries));
    var filled := FillHeaders(map[], HeaderLiteral(custom));
    assert ContentTypeKey in filled && filled[ContentTypeKey] == LastValue(entries, ContentTypeHeader).value by {
      HeaderNamesLowered();
      assert SpreadEntries(custom) == entries;
      LiteralHolds(custom, ContentTypeHeader);
    }
    TokenTouchesOnlyAuthorization(custom, token, ContentTypeKey);
  }

  /** Setting the bearer token leaves every other header as built. */
  lemma TokenTouchesOnlyAuthorization(custom: Option<HeadersInit>, token: Option<string>, n: string)
    requires n != AuthorizationKey
    ensures var filled := FillHeaders(map[], HeaderLiteral(custom));
            var h := RequestHeaders(custom, token);
            (n in h <==> n in filled) && (n in h ==> h[n] == filled[n])
  {
  }

  /** A record that spells the name `content-type` in lower case does not
      override the default: `Headers` appends both values under the one
      name, the default first. */
  lemma LowerCaseContentTypeAppends(value: string, token: Option<string>)
    ensures var h := RequestHeaders(Some(RecordInit([(ContentTypeKey, value)])), token);
            ContentTypeKey in h && h[ContentTypeKey] == JsonMediaType + ", " + value
  {
    HeaderNamesLowered();
    var custom := Some(RecordInit([(ContentTypeKey, value)]));
    var base := [(ContentTypeHeader, JsonMediaType)];
    var lit := HeaderLiteral(custom);
    assert Assign([], ContentTypeKey, value) == [(ContentTypeKey, value)];
    assert Assign(base, ContentTypeKey, value) == base + [(ContentTypeKey, value)];
    var props := SpreadEntries(custom);
    assert props == [(ContentTypeKey, value)];
    assert props[1..] == [];
    assert lit == AssignAll(Assign(base, ContentTypeKey, value), []);
    assert lit == [(ContentTypeHeader, JsonMediaType), (ContentTypeKey, value)];
    assert lit[..1] == base;
    assert FillHeaders(map[], base) == map[ContentTypeKey := JsonMediaType] by {
      assert base[..0] == [];
    }
    var filled := FillHeaders(map[], lit);
    assert filled == AppendHeader(map[ContentTypeKey := JsonMediaType], ContentTypeKey, value);
    assert filled[ContentTypeKey] == JsonMediaType + ", " + value;
    TokenTouchesOnlyAuthorization(custom, token, ContentTypeKey);
  }

  /** Any other header of a record reaches the built headers with its value,
      unless it is an `Authorization` the token replaces. */
  lemma CustomHeaderKept(entries: Record, token: Option<string>, k: string)
    requires HasKey(entries, k)
    requires forall i :: 0 <= i < |entries| && ToLower(entries[i].0) == ToLower(k) ==> entries[i].0 == k
    requires ToLower(k) != ContentTypeKey
    requires !IsTruthy(token) || ToLower(k) != AuthorizationKey
    ensures var h := RequestHeaders(Some(RecordInit(entries)), token);
            ToLower(k) in h && h[ToLower(k)] == LastValue(entries, k).value
  {
    LiteralHolds(Some(RecordInit(entries)), k);
  }

  /** Without a token nothing is added: an `Authorization` header is present
      exactly when a custom header spells it. */
  lemma NoTokenNoAuthorization(custom: Option<HeadersInit>, token: Option<string>)
    requires !IsTruthy(token)
    ensures var spread := SpreadEntries(custom);
            AuthorizationKey in RequestHeaders(custom, token) <==>
            exists i :: 0 <= i < |spread| && ToLower(spread[i].0) == AuthorizationKey
  {
    HeaderNamesLowered();
    var spread := SpreadEntries(custom);
    var base := [(ContentTypeHeader, JsonMediaType)];
    var lit := HeaderLiteral(custom);
    FillHeadersKeys(map[], lit, AuthorizationKey);
    if exists i :: 0 <= i < |lit| && ToLower(lit[i].0) == AuthorizationKey {
      var i :| 0 <= i < |lit| && ToLower(lit[i].0) == AuthorizationKey;
      assert lit[i].0 != ContentTypeHeader;
      assert !HasKey(base, lit[i].0);
      assert HasKey(lit, lit[i].0);
      assert HasKey(spread, lit[i].0);
      var j :| 0 <= j < |spread| && spread[j].0 == lit[i].0;
      assert ToLower(spread[j].0) == AuthorizationKey;
    }
    if exists j :: 0 <= j < |spread| && ToLower(spread[j].0) == AuthorizationKey {
      var j :| 0 <= j < |spread| && ToLower(spread[j].0) == AuthorizationKey;
      assert HasKey(spread, spread[j].0);
      assert HasKey(lit, spread[j].0);
      var i :| 0 <= i < |lit| && lit[i].0 == spread[j].0;
      assert ToLower(lit[i].0) == AuthorizationKey;
    }
  }

  /** A `Headers` object spreads no entries: rebuilding from one yields the
      headers of no custom headers at all. */
  lemma HeadersInstanceSpreadsNothing(h: Headers, token: Option<string>)
    ensures RequestHeaders(Some(HeadersInstance(h)), token) == RequestHeaders(None, token)
  {
  }

  /** What a verb hands to `fetch` carries the default headers only: any
      other name is absent, whatever the caller's options held. */
  lemma OnlyDefaultHeadersReachFetch(token: Option<string>, n: string)
    requires n != ContentTypeKey && n != AuthorizationKey
    ensures n !in RequestHeaders(None, token)
  {
    HeaderNamesLowered();
    var lit := HeaderLiteral(None);
    assert lit == [(ContentTypeHeader, JsonMediaType)];
    FillHeadersKeys(map[], lit, n);
  }

  // ---------------------------------------------------------------------
  // Settling a response

  /** What a fetch ended in: the `fetch` promise rejected, or a response
      arrived with its status and its body as `response.json()` parses it
      (`None`: the body is not JSON). */
  datatype FetchOutcome = FetchRejected | Response(status: nat, body: Option<Json>)

  /** What a call throws: a `CustomApiError`, or, passed through untouched,
      the rejection of `fetch` or of `response.json()` on an ok response. */
  datatype Thrown = ApiFailure(error: CustomApiError) | TransportFailure | BodyParseFailure

  datatype Settled<T> = Returned(response: HttpAdapterResponse<T>) | Threw(thrown: Thrown)

  /** `response.ok`. */
  predicate IsOkStatus(status: nat)
    ensures IsOkStatus(status) <==> |NatToString(status)| == 3 && NatToString(status)[0] == '2'
  {
    SuccessClass(status);
    200 <= status < 300
  }

  /** The error thrown for a non-ok response, given its parsed body. */
  function FailureError(status: nat, body: Option<Json>): (err: CustomApiError)
    ensures err.name == ErrorName
    ensures body.None? ==>
              err.message == HttpErrorMessage(status) && err.code == HttpErrorCode(status) && err.errorData == None
    ensures body.Some? && AsApiErrorResponse(body.value).Some? ==>
              var api := AsApiErrorResponse(body.value).value;
              err.message == api.message && err.code == api.code && err.errorData == body
    ensures body.Some? && AsApiErrorResponse(body.value).None? ==>
              err.message == HttpErrorMessage(status) && err.code == HttpErrorCode(status) &&
              err.errorData == if body.value == JNull then None else body
  {
    if body.None? then NewCustomApiError(HttpErrorMessage(status), Some(HttpErrorCode(status)), None)
    else
      var api := AsApiErrorResponse(body.value);
      if api.Some? then NewCustomApiError(api.value.message, Some(api.value.code), body)
      else NewCustomApiError(HttpErrorMessage(status), Some(HttpErrorCode(status)), if body.value.JNull? then None else body)
  }

  /** The outcome of `executeRequest` once `fetch` has answered. */
  function Settle(o: FetchOutcome): (r: Settled<Json>)
    ensures r.Returned? <==> o.Response? && IsOkStatus(o.status) && o.body.Some?
    ensures r.Returned? ==> r.response == HttpAdapterResponse(true, Null, Value(o.body.value))
    ensures o.FetchRejected? ==> r == Threw(TransportFailure)
    ensures o.Response? && IsOkStatus(o.status) && o.body.None? ==> r == Threw(BodyParseFailure)
    ensures o.Response? && !IsOkStatus(o.status) ==> r == Threw(ApiFailure(FailureError(o.status, o.body)))
  {
    match o
    case FetchRejected => Threw(TransportFailure)
    case Response(status, body) =>
      var ok := IsOkStatus(status);
      if !ok then Threw(ApiFailure(FailureError(status, body)))
      else if body.None? then Threw(BodyParseFailure)
      else
        var data := body.value;
        var error := NewCustomApiError(HttpErrorMessage(status), Some(HttpErrorCode(status)), Some(data));
        Returned(HttpAdapterResponse(ok, if ok then Null else Value(error), if ok then Value(data) else Null))
  }

  /** The adapter never returns a failed envelope: what it returns is ok and
      unmixed, and every failure is thrown. */
  lemma SettleNeverReturnsFailure(o: FetchOutcome)
    ensures Settle(o).Returned? ==> Settle(o).response.isOk && Unmixed(Settle(o).response)
    ensures o.Response? && !IsOkStatus(o.status) ==> Settle(o).Threw?
  {
  }

  // ---------------------------------------------------------------------
  // Requests

  /** The `RequestInit` a verb builds. */
  datatype RequestInit<T> = RequestInit(httpMethod: string, headers: Option<HeadersInit>, body: Option<T>)

  /** What reaches `fetch`: URL, method, header map and the value whose
      `JSON.stringify` is the body. */
  datatype SentRequest<T> = SentRequest(url: UrlValue, httpMethod: string, headers: HeaderMap, body: Option<T>)

  /** The query of a call given `params`. */
  function QueryOf(params: Option<Record>): (q: Record) {
    if params.Some? then params.value else []
  }

  class FetcherAdapter {
    const baseUrl: string

    constructor (baseUrl: string)
      ensures this.baseUrl == baseUrl
    {
      this.baseUrl := baseUrl;
    }

    /** `getHeaders(customHeaders)`. */
    method GetHeaders(custom: Option<HeadersInit>, token: Option<string>) returns (h: Headers)
      ensures fresh(h) && h.entries == RequestHeaders(custom, token)
    {
      h := new Headers(HeaderLiteral(custom));
      if IsTruthy(token) {
        HeaderNamesLowered();
        h.Set("Authorization", "Bearer " + token.value);
      }
    }

    /** `executeRequest(input, init)`: the headers are rebuilt from
        `init.headers` before `fetch` is called. */
    method ExecuteRequest<T>(input: UrlValue, init: RequestInit<T>, token: Option<string>, outcome: FetchOutcome)
      returns (sent: SentRequest<T>, result: Settled<Json>)
      ensures sent == SentRequest(input, init.httpMethod, RequestHeaders(init.headers, token), init.body)
      ensures result == Settle(outcome)
    {
      var headers := GetHeaders(init.headers, token);
      sent := SentRequest(input, init.httpMethod, headers.entries, init.body);
      result := Settle(outcome);
    }

    /** `buildUrl(path, params)`: the URL parsed from `baseUrl + path`,
        keeping any query already there, with every param appended after it
        in entry order. */
    method BuildUrl(path: string, params: Option<Record>) returns (u: UrlValue)
      ensures u.location == baseUrl + path
      ensures u.query == ParsedQuery(baseUrl + path) + QueryOf(params)
      ensures params.None? ==> u.query == ParsedQuery(baseUrl + path)
      ensures '?' !in baseUrl + path ==> u.query == QueryOf(params)
    {
      var url := new Url(baseUrl + path);
      assert '?' !in baseUrl + path ==> url.searchParams.pairs == [];
      if params.Some? {
        url.searchParams.AppendEntries(params.value);
      } else {
        assert url.searchParams.pairs + [] == url.searchParams.pairs;
      }
      u := url.ToValue();
    }

    method Get<T>(url: string, options: Option<HttpAdapterOptions<T>>, token: Option<string>, outcome: FetchOutcome)
      returns (sent: SentRequest<T>, result: Settled<Json>)
      ensures sent.url == UrlValue(baseUrl + url, ParsedQuery(baseUrl + url) + QueryOf(ParamsOf(options)))
      ensures sent.httpMethod == "GET" && sent.body == None
      ensures sent.headers == RequestHeaders(None, token)
      ensures result == Settle(outcome)
    {
      var fullUrl := BuildUrl(url, ParamsOf(options));
      var headers := GetHeaders(HeadersOf(options), token);
      var config := RequestInit("GET", Some(HeadersInstance(headers)), None);
      sent, result := ExecuteRequest(fullUrl, config, token, outcome);
    }

    method Post<T>(url: string, body: T, options: Option<HttpAdapterOptions<T>>, token: Option<string>, outcome: FetchOutcome)
      returns (sent: SentRequest<T>, result: Settled<Json>)
      ensures sent.url == UrlValue(baseUrl + url, ParsedQuery(baseUrl + url) + QueryOf(ParamsOf(options)))
      ensures sent.httpMethod == "POST" && sent.body == Some(body)
      ensures sent.headers == RequestHeaders(None, token)
      ensures result == Settle(outcome)
    {
      var fullUrl := BuildUrl(url, ParamsOf(options));
      var headers := GetHeaders(HeadersOf(options), token);
      var config := RequestInit("POST", Some(HeadersInstance(headers)), Some(body));
      sent, result := ExecuteRequest(fullUrl, config, token, outcome);
    }

    method Put<T>(url: string, body: T, options: Option<HttpAdapterOptions<T>>, token: Option<string>, outcome: FetchOutcome)
      returns (sent: SentRequest<T>, result: Settled<Json>)
      ensures sent.url == UrlValue(baseUrl + url, ParsedQuery(baseUrl + url) + QueryOf(ParamsOf(options)))
      ensures sent.httpMethod == "PUT" && sent.body == Some(body)
      ensures sent.headers == RequestHeaders(None, token)
      ensures result == Settle(outcome)
    {
      var fullUrl := BuildUrl(url, ParamsOf(options));
      var headers := GetHeaders(HeadersOf(options), token);
      var config := RequestInit("PUT", Some(HeadersInstance(headers)), Some(body));
      sent, result := ExecuteRequest(fullUrl, config, token, outcome);
    }

    method Delete<T>(url: string, options: Option<HttpAdapterOptions<T>>, token: Option<string>, outcome: FetchOutcome)
      returns (sent: SentRequest<T>, result: Settled<Json>)
      ensures sent.url == UrlValue(baseUrl + url, ParsedQuery(baseUrl + url) + QueryOf(ParamsOf(options)))
      ensures sent.httpMethod == "DELETE" && sent.body == None
      ensures sent.headers == RequestHeaders(None, token)
      ensures result == Settle(outcome)
    {
      var fullUrl := BuildUrl(url, ParamsOf(options));
      var headers := GetHeaders(HeadersOf(options), token);
      var config := RequestInit("DELETE", Some(HeadersInstance(headers)), None);
      sent, result := ExecuteRequest(fullUrl, config, token, outcome);
    }
  }
}
