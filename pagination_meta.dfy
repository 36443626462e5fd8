/** Paging metadata: the snake_case JSON the API sends and the camelCase
    model the frontend uses. */
module PaginationMeta {

  /** `PaginationMetaJson`. */
  datatype PaginationMetaJson = PaginationMetaJson(total: int, per_page: int, current_page: int, last_page: int)

  /** `PaginationMetaModel`. */
  datatype PaginationMetaModel = PaginationMetaModel(total: int, perPage: int, currentPage: int, lastPage: int)

  /** `new PaginationMetaModel(meta)`: a copy of its argument's four fields. */
  function New(meta: PaginationMetaModel): (r: PaginationMetaModel)
    ensures r == meta
  {
    PaginationMetaModel(meta.total, meta.perPage, meta.currentPage, meta.lastPage)
  }

  /** `PaginationMetaModel.fromJson(json)`: each field renamed, its value copied.
      The source dereferences `json` unguarded, so a present argument is the
      caller's duty; the type says so here. */
  function FromJson(json: PaginationMetaJson): (m: PaginationMetaModel)
    ensures m.total == json.total
    ensures m.perPage == json.per_page && m.currentPage == json.current_page
    ensures m.lastPage == json.last_page
  {
    New(PaginationMetaModel(json.total, json.per_page, json.current_page, json.last_page))
  }

  /** The reverse remap, camelCase back to snake_case. */
  function ToJson(m: PaginationMetaModel): (json: PaginationMetaJson)
    ensures json.total == m.total && json.per_page == m.perPage
    ensures json.current_page == m.currentPage && json.last_page == m.lastPage
  {
    PaginationMetaJson(m.total, m.perPage, m.currentPage, m.lastPage)
  }

  lemma ToJsonFromJson(json: PaginationMetaJson)
    ensures ToJson(FromJson(json)) == json
  {
  }

  lemma FromJsonToJson(m: PaginationMetaModel)
    ensures FromJson(ToJson(m)) == m
  {
  }

  /** Distinct JSON metas give distinct models. */
  lemma FromJsonInjective(a: PaginationMetaJson, b: PaginationMetaJson)
    ensures FromJson(a) == FromJson(b) ==> a == b
  {
    ToJsonFromJson(a);
    ToJsonFromJson(b);
  }
}
