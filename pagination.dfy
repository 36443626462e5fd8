/** `Pagination<T>`: a page of converted items plus its metadata, decoded
    from the raw `{ data, meta }` payload. */
module PaginationModel {
  import opened Js
  import PaginationMeta

  /** The raw `data` member: a JSON array, or anything else (absent, `null`,
      an object, a scalar). */
  datatype DataField<J> = ArrayValue(elems: seq<J>) | NonArray

  /** `PaginationJson<J>`; `meta` may be missing from a malformed payload. */
  datatype PaginationJson<J> = PaginationJson(data: DataField<J>, meta: Option<PaginationMeta.PaginationMetaJson>)

  datatype Pagination<T> = Pagination(data: seq<T>, meta: PaginationMeta.PaginationMetaModel)

  /** `new Pagination(data, meta)`: both stored unchanged. */
  function New<T>(data: seq<T>, meta: PaginationMeta.PaginationMetaModel): (p: Pagination<T>)
    ensures p.data == data && p.meta == meta
  {
    Pagination(data, meta)
  }

  /** `Pagination.fromJson(json, ModelClass)`. The items are converted only
      when `data` is an array; `meta` is converted unguarded (a missing one
      makes the source throw), hence the precondition. */
  function FromJson<T, J>(json: PaginationJson<J>, fromJson: J -> T): (p: Pagination<T>)
    requires json.meta.Some?
    ensures json.data.ArrayValue? ==>
              |p.data| == |json.data.elems| &&
              forall i :: 0 <= i < |p.data| ==> p.data[i] == fromJson(json.data.elems[i])
    ensures json.data.NonArray? ==> p.data == []
    ensures p.meta == PaginationMeta.FromJson(json.meta.value)
  {
    var data := if json.data.ArrayValue? then Map(fromJson, json.data.elems) else [];
    var meta := PaginationMeta.FromJson(json.meta.value);
    New(data, meta)
  }

  /** The factory is consulted on the array's elements only: two factories
      that agree there give the same page, and when `data` is not an array
      any two factories do. */
  lemma FromJsonUsesFactoryOnElementsOnly<T, J>(json: PaginationJson<J>, f: J -> T, g: J -> T)
    requires json.meta.Some?
    requires json.data.ArrayValue? ==> forall i :: 0 <= i < |json.data.elems| ==> f(json.data.elems[i]) == g(json.data.elems[i])
    ensures FromJson(json, f) == FromJson(json, g)
  {
    var p, q := FromJson(json, f), FromJson(json, g);
    assert p.data == q.data;
  }

  /** With an identity factory the items are the raw array itself. */
  lemma FromJsonIdentity<J>(json: PaginationJson<J>)
    requires json.meta.Some? && json.data.ArrayValue?
    ensures FromJson(json, (x: J) => x).data == json.data.elems
  {
  }
}
