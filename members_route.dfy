/** `/api/members`: `POST` turns a join request body into a `members` row
    with status 'pending'; `GET` lists the table (see Http.ListResponse). */
module MembersRoute {
  import opened Common
  import opened Json
  import opened Http

  type Row = map<string, Json>

  /** The body fields the handler reads. */
  const BODY_FIELDS := ["firstName", "lastName", "email", "phone", "interest", "message"]

  /** The row inserted for a request body; None when reading a property of
      the body throws (a `null` body). Optional fields that are falsy become
      null, and the status is always 'pending'. */
  function MemberRow(body: Json): (row: Option<Row>)
    ensures row.None? <==> body in {Undefined, Null}
    ensures row.Some? ==>
      && row.value.Keys == {"first_name", "last_name", "email", "phone", "interest", "message", "status"}
      && row.value["first_name"] == OptGet(body, "firstName")
      && row.value["last_name"] == OptGet(body, "lastName")
      && row.value["email"] == OptGet(body, "email")
      && row.value["phone"] ==
           (if Truthy(OptGet(body, "phone")) then OptGet(body, "phone") else Null)
      && row.value["interest"] ==
           (if Truthy(OptGet(body, "interest")) then OptGet(body, "interest") else Null)
      && row.value["message"] ==
           (if Truthy(OptGet(body, "message")) then OptGet(body, "message") else Null)
      && row.value["status"] == Str("pending")
  {
    if body in {Undefined, Null} then None
    else
      Some(map[
        "first_name" := OptGet(body, "firstName"),
        "last_name" := OptGet(body, "lastName"),
        "email" := OptGet(body, "email"),
        "phone" := OrNull(OptGet(body, "phone")),
        "interest" := OrNull(OptGet(body, "interest")),
        "message" := OrNull(OptGet(body, "message")),
        "status" := Str("pending")])
  }

  /** Only the six named body fields reach the table: two bodies that agree
      on them give the same row, whatever else they carry (a `status`, an
      `id`, a `role`). */
  lemma MemberRowIgnoresOtherFields(b1: Json, b2: Json)
    requires b1 !in {Undefined, Null} && b2 !in {Undefined, Null}
    requires forall i | 0 <= i < |BODY_FIELDS| :: OptGet(b1, BODY_FIELDS[i]) == OptGet(b2, BODY_FIELDS[i])
    ensures MemberRow(b1) == MemberRow(b2)
  {
    assert OptGet(b1, BODY_FIELDS[0]) == OptGet(b2, BODY_FIELDS[0]);
    assert OptGet(b1, BODY_FIELDS[1]) == OptGet(b2, BODY_FIELDS[1]);
    assert OptGet(b1, BODY_FIELDS[2]) == OptGet(b2, BODY_FIELDS[2]);
    assert OptGet(b1, BODY_FIELDS[3]) == OptGet(b2, BODY_FIELDS[3]);
    assert OptGet(b1, BODY_FIELDS[4]) == OptGet(b2, BODY_FIELDS[4]);
    assert OptGet(b1, BODY_FIELDS[5]) == OptGet(b2, BODY_FIELDS[5]);
  }

  /** The `POST` handler. `body` is the outcome of `request.json()`; `insert`
      gives the outcome of inserting a row. */
  function Post(body: Call<Json>, insert: Row -> Call<InsertOutcome>): (r: Response)
    ensures r.status in {201, 400, 500}
    ensures body.Threw? || body.value in {Undefined, Null} ==>
              r == ErrorResponse(500, INTERNAL_ERROR)
    ensures body.Returned? && MemberRow(body.value).Some? ==>
              r == CreateResponse(insert(MemberRow(body.value).value))
  {
    match body
    case Threw(_) => ErrorResponse(500, INTERNAL_ERROR)
    case Returned(b) =>
      match MemberRow(b)
      case None => ErrorResponse(500, INTERNAL_ERROR)
      case Some(row) => CreateResponse(insert(row))
  }
}
