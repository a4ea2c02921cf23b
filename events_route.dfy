/** `/api/events`: `POST` turns a registration body into an
    `event_registrations` row with 0 guests by default and status
    'registered'. Its `GET` is the shared list handler, Http.ListResponse. */
module EventsRoute {
  import opened Common
  import opened Json
  import opened Http

  type Row = map<string, Json>

  const BODY_FIELDS := ["eventName", "participantName", "participantEmail", "participantPhone",
                        "numGuests", "notes"]

  /** The row inserted for a request body; None when the body is null. */
  function RegistrationRow(body: Json): (row: Option<Row>)
    ensures row.None? <==> body in {Undefined, Null}
    ensures row.Some? ==>
      && row.value.Keys == {"event_name", "participant_name", "participant_email",
                            "participant_phone", "num_guests", "notes", "status"}
      && row.value["event_name"] == OptGet(body, "eventName")
      && row.value["participant_name"] == OptGet(body, "participantName")
      && row.value["participant_email"] == OptGet(body, "participantEmail")
      && row.value["participant_phone"] ==
           (if Truthy(OptGet(body, "participantPhone")) then OptGet(body, "participantPhone") else Null)
      && row.value["num_guests"] ==
           (if Truthy(OptGet(body, "numGuests")) then OptGet(body, "numGuests") else Num(0.0))
      && row.value["notes"] ==
           (if Truthy(OptGet(body, "notes")) then OptGet(body, "notes") else Null)
      && row.value["status"] == Str("registered")
  {
    if body in {Undefined, Null} then None
    else
      Some(map[
        "event_name" := OptGet(body, "eventName"),
        "participant_name" := OptGet(body, "participantName"),
        "participant_email" := OptGet(body, "participantEmail"),
        "participant_phone" := OrNull(OptGet(body, "participantPhone")),
        "num_guests" := Or(OptGet(body, "numGuests"), Num(0.0)),
        "notes" := OrNull(OptGet(body, "notes")),
        "status" := Str("registered")])
  }

  /** An absent, null or zero guest count is stored as 0; a positive count
      is stored as given. */
  lemma GuestCountDefault(body: Json, n: real)
    requires body.Obj?
    ensures ("numGuests" !in body.fields || body.fields["numGuests"] in {Null, Num(0.0)}) ==>
              RegistrationRow(body).value["num_guests"] == Num(0.0)
    ensures "numGuests" in body.fields && body.fields["numGuests"] == Num(n) && n > 0.0 ==>
              RegistrationRow(body).value["num_guests"] == Num(n)
  {
  }

  /** Only the six named body fields reach the table. */
  lemma RegistrationRowIgnoresOtherFields(b1: Json, b2: Json)
    requires b1 !in {Undefined, Null} && b2 !in {Undefined, Null}
    requires forall i | 0 <= i < |BODY_FIELDS| :: OptGet(b1, BODY_FIELDS[i]) == OptGet(b2, BODY_FIELDS[i])
    ensures RegistrationRow(b1) == RegistrationRow(b2)
  {
    assert OptGet(b1, BODY_FIELDS[0]) == OptGet(b2, BODY_FIELDS[0]);
    assert OptGet(b1, BODY_FIELDS[1]) == OptGet(b2, BODY_FIELDS[1]);
    assert OptGet(b1, BODY_FIELDS[2]) == OptGet(b2, BODY_FIELDS[2]);
    assert OptGet(b1, BODY_FIELDS[3]) == OptGet(b2, BODY_FIELDS[3]);
    assert OptGet(b1, BODY_FIELDS[4]) == OptGet(b2, BODY_FIELDS[4]);
    assert OptGet(b1, BODY_FIELDS[5]) == OptGet(b2, BODY_FIELDS[5]);
  }

  /** The `POST` handler. */
  function Post(body: Call<Json>, insert: Row -> Call<InsertOutcome>): (r: Response)
    ensures r.status in {201, 400, 500}
    ensures body.Threw? || body.value in {Undefined, Null} ==>
              r == ErrorResponse(500, INTERNAL_ERROR)
    ensures body.Returned? && RegistrationRow(body.value).Some? ==>
              r == CreateResponse(insert(RegistrationRow(body.value).value))
  {
    match body
    case Threw(_) => ErrorResponse(500, INTERNAL_ERROR)
    case Returned(b) =>
      match RegistrationRow(b)
      case None => ErrorResponse(500, INTERNAL_ERROR)
      case Some(row) => CreateResponse(insert(row))
  }
}
