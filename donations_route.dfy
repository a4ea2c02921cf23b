/** `/api/donations`: `POST` turns a donation body into a `donations` row
    with currency 'INR' by default and status 'completed'. Its `GET` is the
    shared list handler, Http.ListResponse. */
module DonationsRoute {
  import opened Common
  import opened Json
  import opened Http

  type Row = map<string, Json>

  const BODY_FIELDS := ["donorName", "donorEmail", "amount", "currency", "method", "transactionId", "notes"]
  const DEFAULT_CURRENCY := "INR"

  /** The row inserted for a request body; None when the body is null. */
  function DonationRow(body: Json): (row: Option<Row>)
    ensures row.None? <==> body in {Undefined, Null}
    ensures row.Some? ==>
      && row.value.Keys == {"donor_name", "donor_email", "amount", "currency", "method",
                            "transaction_id", "notes", "status"}
      && row.value["donor_name"] == OptGet(body, "donorName")
      && row.value["donor_email"] == OptGet(body, "donorEmail")
      && row.value["amount"] == OptGet(body, "amount")
      && row.value["currency"] ==
           (if Truthy(OptGet(body, "currency")) then OptGet(body, "currency") else Str(DEFAULT_CURRENCY))
      && Truthy(row.value["currency"])
      && row.value["method"] ==
           (if Truthy(OptGet(body, "method")) then OptGet(body, "method") else Null)
      && row.value["transaction_id"] ==
           (if Truthy(OptGet(body, "transactionId")) then OptGet(body, "transactionId") else Null)
      && row.value["notes"] ==
           (if Truthy(OptGet(body, "notes")) then OptGet(body, "notes") else Null)
      && row.value["status"] == Str("completed")
  {
    if body in {Undefined, Null} then None
    else
      Some(map[
        "donor_name" := OptGet(body, "donorName"),
        "donor_email" := OptGet(body, "donorEmail"),
        "amount" := OptGet(body, "amount"),
        "currency" := Or(OptGet(body, "currency"), Str(DEFAULT_CURRENCY)),
        "method" := OrNull(OptGet(body, "method")),
        "transaction_id" := OrNull(OptGet(body, "transactionId")),
        "notes" := OrNull(OptGet(body, "notes")),
        "status" := Str("completed")])
  }

  /** Only the seven named body fields reach the table; in particular a
      body cannot choose the status. */
  lemma DonationRowIgnoresOtherFields(b1: Json, b2: Json)
    requires b1 !in {Undefined, Null} && b2 !in {Undefined, Null}
    requires forall i | 0 <= i < |BODY_FIELDS| :: OptGet(b1, BODY_FIELDS[i]) == OptGet(b2, BODY_FIELDS[i])
    ensures DonationRow(b1) == DonationRow(b2)
  {
    assert OptGet(b1, BODY_FIELDS[0]) == OptGet(b2, BODY_FIELDS[0]);
    assert OptGet(b1, BODY_FIELDS[1]) == OptGet(b2, BODY_FIELDS[1]);
    assert OptGet(b1, BODY_FIELDS[2]) == OptGet(b2, BODY_FIELDS[2]);
    assert OptGet(b1, BODY_FIELDS[3]) == OptGet(b2, BODY_FIELDS[3]);
    assert OptGet(b1, BODY_FIELDS[4]) == OptGet(b2, BODY_FIELDS[4]);
    assert OptGet(b1, BODY_FIELDS[5]) == OptGet(b2, BODY_FIELDS[5]);
    assert OptGet(b1, BODY_FIELDS[6]) == OptGet(b2, BODY_FIELDS[6]);
  }

  /** The `POST` handler. */
  function Post(body: Call<Json>, insert: Row -> Call<InsertOutcome>): (r: Response)
    ensures r.status in {201, 400, 500}
    ensures body.Threw? || body.value in {Undefined, Null} ==>
              r == ErrorResponse(500, INTERNAL_ERROR)
    ensures body.Returned? && DonationRow(body.value).Some? ==>
              r == CreateResponse(insert(DonationRow(body.value).value))
  {
    match body
    case Threw(_) => ErrorResponse(500, INTERNAL_ERROR)
    case Returned(b) =>
      match DonationRow(b)
      case None => ErrorResponse(500, INTERNAL_ERROR)
      case Some(row) => CreateResponse(insert(row))
  }
}
