/** The uniform error value of the data-access layer (`CustomApiError`), the
    structured error body a server may send (`ApiErrorResponse`), and the
    `HTTP_ERROR_<status>` shape both adapters synthesise. */
module ApiErrorType {
  import opened Js
  import opened Json

  /** `{ code, message }`: the structured error body of a failed request. */
  datatype ApiErrorResponse = ApiErrorResponse(code: string, message: string)

  /** An `Error` subclass instance: `name`, `message`, `code` and the optional
      raw payload `errorData`. */
  datatype CustomApiError = CustomApiError(name: string, message: string, code: string, errorData: Option<Json>)

  const ErrorName := "CustomApiError"
  const DefaultCode := "UNKNOWN_ERROR"

  /** `new CustomApiError(message, code?, errorData?)`. */
  function NewCustomApiError(message: string, code: Option<string>, errorData: Option<Json>): (e: CustomApiError)
    ensures e.name == ErrorName
    ensures e.message == message
    ensures code.None? ==> e.code == DefaultCode
    ensures code.Some? ==> e.code == code.value
    ensures e.errorData == errorData
  {
    CustomApiError(ErrorName, message, if code.Some? then code.value else DefaultCode, errorData)
  }

  /** `body?.code && body?.message`: the body names a server error when both
      members hold non-empty strings. */
  function AsApiErrorResponse(body: Json): (r: Option<ApiErrorResponse>)
    ensures r.Some? <==> HasNonEmptyString(body, "code") && HasNonEmptyString(body, "message")
    ensures r.Some? ==> Get(body, "code") == Some(JString(r.value.code)) && r.value.code != ""
    ensures r.Some? ==> Get(body, "message") == Some(JString(r.value.message)) && r.value.message != ""
  {
    if HasNonEmptyString(body, "code") && HasNonEmptyString(body, "message")
    then Some(ApiErrorResponse(Get(body, "code").value.s, Get(body, "message").value.s))
    else None
  }

  // ---------------------------------------------------------------------
  // `HTTP Error: ${status}` / `HTTP_ERROR_${status}`

  const HttpErrorMessagePrefix := "HTTP Error: "
  const HttpErrorPrefix := "HTTP_ERROR_"

  /** `HTTP Error: ${status}`: the prefix, then a numeral that denotes the
      status and starts with `0` only for zero. */
  function HttpErrorMessage(status: nat): (m: string)
    ensures |m| > |HttpErrorMessagePrefix| && m[..|HttpErrorMessagePrefix|] == HttpErrorMessagePrefix
    ensures IsDigits(m[|HttpErrorMessagePrefix|..]) && DigitsValue(m[|HttpErrorMessagePrefix|..]) == status
    ensures m[|HttpErrorMessagePrefix|] == '0' <==> status == 0
  {
    var m := HttpErrorMessagePrefix + NatToString(status);
    NatToStringValue(status);
    assert m[|HttpErrorMessagePrefix|..] == NatToString(status);
    m
  }

  /** `HTTP_ERROR_${status}`: the prefix, then a numeral that denotes the
      status and starts with `0` only for zero. */
  function HttpErrorCode(status: nat): (c: string)
    ensures |c| > |HttpErrorPrefix| && c[..|HttpErrorPrefix|] == HttpErrorPrefix
    ensures IsDigits(c[|HttpErrorPrefix|..]) && DigitsValue(c[|HttpErrorPrefix|..]) == status
    ensures c[|HttpErrorPrefix|] == '0' <==> status == 0
  {
    var c := HttpErrorPrefix + NatToString(status);
    NatToStringValue(status);
    assert c[|HttpErrorPrefix|..] == NatToString(status);
    c
  }

  /** The status a synthesised `HTTP_ERROR_<status>` code names, if it is one. */
  function StatusOfHttpErrorCode(code: string): (r: Option<nat>) {
    var p := |HttpErrorPrefix|;
    if |code| > p && code[..p] == HttpErrorPrefix && IsDigits(code[p..])
    then Some(DigitsValue(code[p..]))
    else None
  }

  /** The synthesised code determines the status it was made from. */
  lemma HttpErrorCodeRoundTrip(status: nat)
    ensures StatusOfHttpErrorCode(HttpErrorCode(status)) == Some(status)
  {
    var code := HttpErrorCode(status);
    var p := |HttpErrorPrefix|;
    assert code[..p] == HttpErrorPrefix;
    assert code[p..] == NatToString(status);
    NatToStringValue(status);
  }

  /** Distinct statuses give distinct codes. */
  lemma HttpErrorCodeInjective(s1: nat, s2: nat)
    ensures HttpErrorCode(s1) == HttpErrorCode(s2) ==> s1 == s2
  {
    HttpErrorCodeRoundTrip(s1);
    HttpErrorCodeRoundTrip(s2);
  }
}
