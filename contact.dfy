/** The contact page: a four-field form posted to `/api/contact`. */
module Contact {
  import opened Common
  import opened Json
  import opened Http
  import opened Forms

  const ENDPOINT := "/api/contact"
  const FIELDS := {"name", "email", "subject", "message"}

  class ContactPage {
    var formData: map<string, string>
    var isSubmitting: bool
    var status: SubmitStatus

    ghost predicate Valid()
      reads this
    {
      FIELDS <= formData.Keys
    }

    constructor ()
      ensures Valid()
      ensures formData == Blank(FIELDS) && !isSubmitting && status == Idle
    {
      formData := Blank(FIELDS);
      isSubmitting := false;
      status := Idle;
    }

    /** `handleChange`: only the field named by the input's id changes. */
    method HandleChange(id: string, value: string)
      requires Valid()
      modifies this`formData
      ensures Valid()
      ensures formData == old(formData)[id := value]
    {
      formData := formData[id := value];
    }

    /** `handleSubmit`: success clears the form, failure keeps it. */
    method HandleSubmit(reply: Call<int>) returns (body: Json, ghost atRequest: SubmitStart)
      requires Valid()
      modifies this
      ensures Valid()
      ensures body == RequestBody(old(formData))
      ensures atRequest == SubmitStart(true, Idle)
      ensures !isSubmitting
      ensures reply.Returned? && IsOk(reply.value) ==> status == Success && formData == Blank(FIELDS)
      ensures reply.Threw? || !IsOk(reply.value) ==> status == Failure && formData == old(formData)
    {
      isSubmitting := true;
      status := Idle;
      atRequest := SubmitStart(isSubmitting, status);
      body := RequestBody(formData);
      if reply.Returned? && IsOk(reply.value) {
        status := Success;
        formData := Blank(FIELDS);
      } else {
        status := Failure;
      }
      isSubmitting := false;
    }
  }
}
