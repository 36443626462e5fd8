/** `BaseService`: the envelope transformers that turn an adapter's raw
    response into typed models, and the four verb helpers that prefix the
    resource's base endpoint before delegating to the adapter. */
module BaseService {
  import opened Js
  import opened HttpInterface
  import PaginationModel

  /** `{ data: TJson }`: the payload shape of single-item and collection responses. */
  datatype Wrapped<J> = Wrapped(data: J)

  /** Failure propagation shared by `item` and `paginated`:
      `{ isOk: result.isOk, error: result.error, data: null }`. */
  function Propagated<A, B>(result: HttpAdapterResponse<A>): (r: HttpAdapterResponse<B>)
    ensures r.isOk == result.isOk && r.error == result.error && !r.data.IsPresent()
    ensures !result.isOk && Unmixed(result) ==> Unmixed(r)
  {
    HttpAdapterResponse(result.isOk, result.error, Null)
  }

  /** `item(result, ModelClass)`. */
  function Item<M, J>(result: HttpAdapterResponse<Wrapped<J>>, fromJson: J -> M): (r: HttpAdapterResponse<M>)
    ensures r.isOk == result.isOk
    ensures !result.isOk || !result.data.IsPresent() ==> r.error == result.error && r.data == Null
    ensures result.isOk && result.data.IsPresent() ==>
              r.error == Null && r.data == Value(fromJson(result.data.value.data))
  {
    if !result.isOk || !result.data.IsPresent() then Propagated(result)
    else HttpAdapterResponse(true, Null, Value(fromJson(result.data.value.data)))
  }

  /** `collection(result, ModelClass)`: `{ ...result, data }` keeps `isOk` and
      `error` as they were on both paths. */
  function Collection<M, J>(result: HttpAdapterResponse<Wrapped<seq<J>>>, fromJson: J -> M): (r: HttpAdapterResponse<seq<M>>)
    ensures r.isOk == result.isOk && r.error == result.error
    ensures !result.isOk || !result.data.IsPresent() ==> r.data == Value([])
    ensures result.isOk && result.data.IsPresent() ==>
              var raw := result.data.value.data;
              r.data.Value? && |r.data.value| == |raw| &&
              forall i :: 0 <= i < |raw| ==> r.data.value[i] == fromJson(raw[i])
  {
    if !result.isOk || !result.data.IsPresent() then HttpAdapterResponse(result.isOk, result.error, Value([]))
    else HttpAdapterResponse(result.isOk, result.error, Value(Map(fromJson, result.data.value.data)))
  }

  /** `paginated(result, ModelClass)`. A successful payload must carry `meta`,
      which the source converts unguarded. */
  function Paginated<M, J>(result: HttpAdapterResponse<PaginationModel.PaginationJson<J>>, fromJson: J -> M): (r: HttpAdapterResponse<PaginationModel.Pagination<M>>)
    requires result.isOk && result.data.IsPresent() ==> result.data.value.meta.Some?
    ensures r.isOk == result.isOk
    ensures !result.isOk || !result.data.IsPresent() ==> r.error == result.error && r.data == Null
    ensures result.isOk && result.data.IsPresent() ==>
              r.error == Null && r.data == Value(PaginationModel.FromJson(result.data.value, fromJson))
  {
    if !result.isOk || !result.data.IsPresent() then Propagated(result)
    else HttpAdapterResponse(true, Null, Value(PaginationModel.FromJson(result.data.value, fromJson)))
  }

  /** `item` and `paginated` keep an unmixed envelope unmixed. */
  lemma ItemKeepsUnmixed<M, J>(result: HttpAdapterResponse<Wrapped<J>>, fromJson: J -> M)
    requires Unmixed(result)
    ensures Unmixed(Item(result, fromJson))
  {
  }

  lemma PaginatedKeepsUnmixed<M, J>(result: HttpAdapterResponse<PaginationModel.PaginationJson<J>>, fromJson: J -> M)
    requires result.isOk && result.data.IsPresent() ==> result.data.value.meta.Some?
    requires Unmixed(result)
    ensures Unmixed(Paginated(result, fromJson))
  {
  }

  /** `collection` of an unmixed envelope: an ok result carries no error; a
      failed one carries the input's error and the empty list. */
  lemma CollectionOfUnmixed<M, J>(result: HttpAdapterResponse<Wrapped<seq<J>>>, fromJson: J -> M)
    requires Unmixed(result)
    ensures var r := Collection(result, fromJson);
            (r.isOk ==> !r.error.IsPresent()) &&
            (!r.isOk ==> r.error.IsPresent() && r.error == result.error && r.data == Value([]))
  {
  }

  /** With an identity factory, `collection` returns the raw array as it came. */
  lemma CollectionIdentity<J>(result: HttpAdapterResponse<Wrapped<seq<J>>>)
    requires result.isOk && result.data.IsPresent()
    ensures Collection(result, (x: J) => x) == HttpAdapterResponse(result.isOk, result.error, Value(result.data.value.data))
  {
    var r := Collection(result, (x: J) => x);
    assert r.data.value == result.data.value.data;
  }

  /** A successful page holds one converted item per raw element, in order. */
  lemma PaginatedItems<M, J>(result: HttpAdapterResponse<PaginationModel.PaginationJson<J>>, fromJson: J -> M)
    requires result.isOk && result.data.IsPresent() && result.data.value.meta.Some?
    requires result.data.value.data.ArrayValue?
    ensures var r := Paginated(result, fromJson);
            var raw := result.data.value.data.elems;
            r.data.Value? && |r.data.value.data| == |raw| &&
            forall i :: 0 <= i < |raw| ==> r.data.value.data[i] == fromJson(raw[i])
  {
  }

  // ---------------------------------------------------------------------
  // The verb helpers

  /** The call a verb helper hands to the injected adapter. */
  datatype AdapterCall<T> = AdapterCall(verb: Verb, url: string, options: Option<HttpAdapterOptions<T>>)

  /** The `path` a verb helper uses when called without one. */
  const DefaultPath := ""

  /** A service bound to its resource's base endpoint. The injected adapter
      is represented by the `AdapterCall` each verb returns. */
  datatype BaseService = BaseService(baseEndpoint: string) {

    /** `${this.baseEndpoint}${path}`. */
    function Endpoint(path: string): (url: string)
      ensures |url| == |baseEndpoint| + |path|
      ensures url[..|baseEndpoint|] == baseEndpoint && url[|baseEndpoint|..] == path
    {
      baseEndpoint + path
    }

    function Get<T>(path: string, options: Option<HttpAdapterOptions<T>>): (c: AdapterCall<T>)
      ensures c.verb == GET && c.url == Endpoint(path) && c.options == options
    {
      AdapterCall(GET, Endpoint(path), options)
    }

    function Post<T>(path: string, options: Option<HttpAdapterOptions<T>>): (c: AdapterCall<T>)
      ensures c.verb == POST && c.url == Endpoint(path) && c.options == options
    {
      AdapterCall(POST, Endpoint(path), options)
    }

    function Put<T>(path: string, options: Option<HttpAdapterOptions<T>>): (c: AdapterCall<T>)
      ensures c.verb == PUT && c.url == Endpoint(path) && c.options == options
    {
      AdapterCall(PUT, Endpoint(path), options)
    }

    function Delete<T>(path: string, options: Option<HttpAdapterOptions<T>>): (c: AdapterCall<T>)
      ensures c.verb == DELETE && c.url == Endpoint(path) && c.options == options
    {
      AdapterCall(DELETE, Endpoint(path), options)
    }

    /** With the default path the adapter is called on the base endpoint itself. */
    lemma DefaultPathIsBase()
      ensures Endpoint(DefaultPath) == baseEndpoint
    {
    }

    /** The URL determines the path: two paths reach the adapter as the same
        URL only if they are equal. */
    lemma EndpointInjective(p: string, q: string)
      ensures Endpoint(p) == Endpoint(q) ==> p == q
    {
      if Endpoint(p) == Endpoint(q) {
        assert p == Endpoint(p)[|baseEndpoint|..];
      }
    }
  }
}
