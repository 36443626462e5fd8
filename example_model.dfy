/** The example resource model: `Example.fromJson` copies `id`. It serves as
    a concrete factory for the page decoder. */
module ExampleModel {
  import opened Js
  import PaginationMeta
  import PaginationModel

  datatype ExampleJson = ExampleJson(id: int)

  datatype Example = Example(id: int)

  /** `Example.fromJson(json)`: the id is copied. */
  function FromJson(json: ExampleJson): (e: Example)
    ensures e.id == json.id
  {
    Example(json.id)
  }

  /** The payload `{ data: [{id: 1}, {id: 2}], meta: {total: 2, per_page: 10,
      current_page: 1, last_page: 1} }` decodes to the two examples and the
      renamed meta. */
  lemma TwoItemPageDecodes()
    ensures PaginationModel.FromJson(
              PaginationModel.PaginationJson(
                PaginationModel.ArrayValue([ExampleJson(1), ExampleJson(2)]),
                Some(PaginationMeta.PaginationMetaJson(2, 10, 1, 1))),
              FromJson)
            == PaginationModel.Pagination([Example(1), Example(2)], PaginationMeta.PaginationMetaModel(2, 10, 1, 1))
  {
    var p := PaginationModel.FromJson(
              PaginationModel.PaginationJson(
                PaginationModel.ArrayValue([ExampleJson(1), ExampleJson(2)]),
                Some(PaginationMeta.PaginationMetaJson(2, 10, 1, 1))),
              FromJson);
    assert p.data == [Example(1), Example(2)];
  }
}
