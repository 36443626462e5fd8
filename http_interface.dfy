/** The adapter-facing types: the options bag every verb takes and the
    `{ isOk, error, data }` envelope every call answers with. */
module HttpInterface {
  import opened Js
  import opened ApiErrorType
  import opened WebHeaders

  datatype Verb = GET | POST | PUT | DELETE

  /** `HttpAdapterOptions<T>`: header overrides, query parameters, a body. */
  datatype HttpAdapterOptions<T> = HttpAdapterOptions(headers: Option<HeadersInit>, params: Option<Record>, data: Option<T>)

  /** `HttpAdapterResponse<T>`. */
  datatype HttpAdapterResponse<T> = HttpAdapterResponse(isOk: bool, error: Nullable<CustomApiError>, data: Nullable<T>)

  /** No mixed envelope: an ok one carries no error, a failed one carries an
      error and no data. */
  predicate Unmixed<T>(r: HttpAdapterResponse<T>) {
    && (r.isOk ==> !r.error.IsPresent())
    && (!r.isOk ==> r.error.IsPresent() && !r.data.IsPresent())
  }

  /** The statuses 200 to 299 are exactly those whose decimal numeral has
      three digits and starts with 2: the class 2xx (Successful) of section
      15.3 of RFC 9110. */
  lemma SuccessClass(status: nat)
    ensures 200 <= status < 300 <==> |NatToString(status)| == 3 && NatToString(status)[0] == '2'
  {
    var s := NatToString(status);
    if 200 <= status < 300 {
      assert s == NatToString(status / 10) + [DigitChar(status % 10)];
      assert NatToString(status / 10) == NatToString(status / 10 / 10) + [DigitChar(status / 10 % 10)];
      assert status / 10 / 10 == 2;
      assert NatToString(2) == ['2'];
    }
    if |s| == 3 && s[0] == '2' {
      NatToStringValue(status);
      assert s[..2][..1] == s[..1];
      assert s[..1][..0] == [];
      assert DigitsValue(s[..1]) == 2;
      assert DigitsValue(s[..2]) == 20 + (s[1] as int - '0' as int);
      assert s[..2][1] == s[1];
      assert IsDigit(s[1]) && IsDigit(s[2]);
    }
  }

  /** `options?.headers`. */
  function HeadersOf<T>(options: Option<HttpAdapterOptions<T>>): (h: Option<HeadersInit>) {
    if options.Some? then options.value.headers else None
  }

  /** `options?.params`. */
  function ParamsOf<T>(options: Option<HttpAdapterOptions<T>>): (p: Option<Record>) {
    if options.Some? then options.value.params else None
  }

  /** `options?.data`. */
  function DataOf<T>(options: Option<HttpAdapterOptions<T>>): (d: Option<T>) {
    if options.Some? then options.value.data else None
  }
}
