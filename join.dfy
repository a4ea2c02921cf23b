/** The join page: a six-field form posted to `/api/members`. */
module Join {
  import opened Common
  import opened Json
  import opened Http
  import opened Forms
  import MembersRoute

  const ENDPOINT := "/api/members"
  const FIELDS := {"firstName", "lastName", "email", "phone", "interest", "message"}

  class JoinPage {
    var formData: map<string, string>
    var isSubmitting: bool
    var status: SubmitStatus

    /** Every input of the page has its field in the record. */
    ghost predicate Valid()
      reads this
    {
      FIELDS <= formData.Keys
    }

    constructor ()
      ensures Valid()
      ensures formData == Blank(FIELDS) && !isSubmitting && status == Idle
    {
      formData := Blank(FIELDS);
      isSubmitting := false;
      status := Idle;
    }

    /** `handleChange`: the field named by the input's id takes its value;
        no other field changes. */
    method HandleChange(id: string, value: string)
      requires Valid()
      modifies this`formData
      ensures Valid()
      ensures formData == old(formData)[id := value]
    {
      formData := formData[id := value];
    }

    /** `handleSubmit`. `reply` is the status of the response, or the error
        the request threw; `body` is what was posted. */
    method HandleSubmit(reply: Call<int>) returns (body: Json, ghost atRequest: SubmitStart)
      requires Valid()
      modifies this
      ensures Valid()
      ensures body == RequestBody(old(formData))
      ensures atRequest == SubmitStart(true, Idle)
      ensures !isSubmitting
      ensures reply.Returned? && IsOk(reply.value) ==> status == Success && formData == Blank(FIELDS)
      ensures reply.Threw? || !IsOk(reply.value) ==> status == Failure && formData == old(formData)
    {
      isSubmitting := true;
      status := Idle;
      atRequest := SubmitStart(isSubmitting, status);
      body := RequestBody(formData);
      if reply.Returned? && IsOk(reply.value) {
        status := Success;
        formData := Blank(FIELDS);
      } else {
        status := Failure;
      }
      isSubmitting := false;
    }
  }

  /** The members row stored for a submitted join form gives the form back:
      every field reads back as it was typed (an empty optional field is
      stored as null and reads back empty), and the status is 'pending'. */
  lemma JoinFormRoundTrip(form: map<string, string>)
    requires FIELDS <= form.Keys
    ensures MembersRoute.MemberRow(RequestBody(form)).Some?
    ensures var row := MembersRoute.MemberRow(RequestBody(form)).value;
      && TextOf(row["first_name"]) == form["firstName"]
      && TextOf(row["last_name"]) == form["lastName"]
      && TextOf(row["email"]) == form["email"]
      && TextOf(row["phone"]) == form["phone"]
      && TextOf(row["interest"]) == form["interest"]
      && TextOf(row["message"]) == form["message"]
      && row["status"] == Str("pending")
  {
    var body := RequestBody(form);
    assert body.fields["firstName"] == Str(form["firstName"]);
    assert body.fields["lastName"] == Str(form["lastName"]);
    assert body.fields["email"] == Str(form["email"]);
    assert body.fields["phone"] == Str(form["phone"]);
    assert body.fields["interest"] == Str(form["interest"]);
    assert body.fields["message"] == Str(form["message"]);
  }
}
