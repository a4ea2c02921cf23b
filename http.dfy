/** HTTP responses as the route handlers build them with `NextResponse.json`,
    and the two response selections the CRUD routes share. */
module Http {
  import opened Common
  import opened Json

  /** A JSON response: a status code and a JSON body. */
  datatype Response = Response(status: int, body: Json)

  const INTERNAL_ERROR := "Internal server error"

  /** `response.ok` on the client side: a 2xx status. */
  predicate IsOk(status: int) {
    200 <= status <= 299
  }

  /** `{ error: message }` with the given status. */
  function ErrorResponse(status: int, message: string): (r: Response)
    ensures r.status == status
    ensures r.body.Obj? && r.body.fields.Keys == {"error"}
    // the client reads the message back as `body.error`
    ensures OptGet(r.body, "error") == Str(message)
  {
    Response(status, Message("error", message))
  }

  /** What `.insert([...]).select()` yields: an error or the inserted rows. */
  datatype InsertOutcome = InsertFailed(message: string) | Inserted(data: Json)

  /** What `.select('*').order(...)` yields: an error or the selected rows. */
  datatype SelectOutcome = SelectFailed(message: string) | Selected(data: Json)

  /** The tail of every `POST` handler: an insert error is answered with 400
      and its message, inserted rows with 201 `{ success: true, data }`, and
      a thrown exception with 500. */
  function CreateResponse(insert: Call<InsertOutcome>): (r: Response)
    ensures r.status in {201, 400, 500}
    ensures r.status == 201 <==> insert.Returned? && insert.value.Inserted?
    ensures r.status == 201 ==>
      r.body == Obj(map["success" := Bool(true), "data" := insert.value.data])
    ensures r.status == 400 <==> insert.Returned? && insert.value.InsertFailed?
    ensures r.status == 400 ==> r.body == Message("error", insert.value.message)
    ensures r.status == 500 <==> insert.Threw?
    ensures r.status == 500 ==> r.body == Message("error", INTERNAL_ERROR)
  {
    match insert
    case Threw(_) => ErrorResponse(500, INTERNAL_ERROR)
    case Returned(InsertFailed(message)) => ErrorResponse(400, message)
    case Returned(Inserted(data)) =>
      Response(201, Obj(map["success" := Bool(true), "data" := data]))
  }

  /** Every `GET` list handler: a query error is answered with 400 and its
      message, rows with the default status 200 and `{ data }`, and a thrown
      exception with 500. */
  function ListResponse(query: Call<SelectOutcome>): (r: Response)
    ensures r.status in {200, 400, 500}
    ensures r.status == 200 <==> query.Returned? && query.value.Selected?
    ensures r.status == 200 ==> r.body == Obj(map["data" := query.value.data])
    ensures r.status == 400 <==> query.Returned? && query.value.SelectFailed?
    ensures r.status == 400 ==> r.body == Message("error", query.value.message)
    ensures r.status == 500 ==> r.body == Message("error", INTERNAL_ERROR)
  {
    match query
    case Threw(_) => ErrorResponse(500, INTERNAL_ERROR)
    case Returned(SelectFailed(message)) => ErrorResponse(400, message)
    case Returned(Selected(data)) => Response(200, Obj(map["data" := data]))
  }
}
