/** How the two adapters answer the same exchange. The axios adapter turns
    every failure into a failed envelope; the fetch-based one throws it. For
    a response that reached the client the thrown error and the envelope's
    error agree, except for a `null` error body, which the axios adapter
    keeps as `errorData` and the fetch-based one drops. */
module AdapterComparison {
  import opened Js
  import opened Json
  import opened ApiErrorType
  import opened HttpInterface
  import AxiosAdapter
  import FetcherAdapter

  /** On a success status both adapters produce the same envelope. */
  lemma SuccessAgrees(status: nat, body: Json)
    requires AxiosAdapter.IsSuccessStatus(status)
    ensures FetcherAdapter.Settle(FetcherAdapter.Response(status, Some(body)))
         == FetcherAdapter.Returned(AxiosAdapter.Execute(AxiosAdapter.Received(status, body)))
  {
  }

  /** On a failure status the axios adapter returns a failed envelope whose
      error is exactly what the fetch-based adapter throws, for every body
      other than `null`. */
  lemma FailureAgrees(status: nat, body: Json)
    requires !AxiosAdapter.IsSuccessStatus(status) && body != JNull
    ensures var r := AxiosAdapter.Execute(AxiosAdapter.Received(status, body));
            !r.isOk && r.data == Null &&
            FetcherAdapter.Settle(FetcherAdapter.Response(status, Some(body)))
              == FetcherAdapter.Threw(FetcherAdapter.ApiFailure(r.error.value))
  {
  }

  /** A failed response with a `null` body: same message and code, but only
      the axios adapter keeps the body as `errorData`. */
  lemma NullBodyDiffers(status: nat)
    requires !AxiosAdapter.IsSuccessStatus(status)
    ensures var a := AxiosAdapter.Execute(AxiosAdapter.Received(status, JNull)).error.value;
            var f := FetcherAdapter.Settle(FetcherAdapter.Response(status, Some(JNull))).thrown.error;
            a.errorData == Some(JNull) && f.errorData == None &&
            a.message == f.message && a.code == f.code &&
            a.code == HttpErrorCode(status)
  {
  }

  /** No reply at all: the axios adapter answers with a `NETWORK_ERROR`
      envelope, the fetch-based one lets the rejection of `fetch` through. */
  lemma NoReplyDiffers()
    ensures var r := AxiosAdapter.Execute(AxiosAdapter.NoReply);
            !r.isOk && r.error.Value? && r.error.value.code == AxiosAdapter.NetworkErrorCode
    ensures FetcherAdapter.Settle(FetcherAdapter.FetchRejected)
         == FetcherAdapter.Threw(FetcherAdapter.TransportFailure)
  {
  }

  /** A body that is not JSON: axios hands the raw text on as a string,
      while `response.json()` rejects in the fetch-based adapter. On a
      success status axios returns the text as data and the fetch-based
      adapter lets the parse failure through. On a failure status both
      report `HTTP_ERROR_<status>`, but only axios keeps the text as
      `errorData`. */
  lemma NonJsonBodyDiffers(status: nat, text: string)
    ensures var r := AxiosAdapter.Execute(AxiosAdapter.Received(status, JString(text)));
            var f := FetcherAdapter.Settle(FetcherAdapter.Response(status, None));
            (AxiosAdapter.IsSuccessStatus(status) ==>
               r.isOk && r.data == Value(JString(text)) &&
               f == FetcherAdapter.Threw(FetcherAdapter.BodyParseFailure)) &&
            (!AxiosAdapter.IsSuccessStatus(status) ==>
               !r.isOk && f.Threw? && f.thrown.ApiFailure? &&
               r.error.value.message == f.thrown.error.message == HttpErrorMessage(status) &&
               r.error.value.code == f.thrown.error.code == HttpErrorCode(status) &&
               r.error.value.errorData == Some(JString(text)) && f.thrown.error.errorData == None)
  {
  }
}
