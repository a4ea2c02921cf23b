/** What the join and contact forms share: the submit status, blank form
    records and the JSON body a form is posted as. */
module Forms {
  import opened Json

  /** `'idle' | 'success' | 'error'`. */
  datatype SubmitStatus = Idle | Success | Failure

  /** A form record whose every field is empty. */
  function Blank(fields: set<string>): (form: map<string, string>)
    ensures form.Keys == fields
    ensures forall k | k in form :: form[k] == ""
  {
    map k | k in fields :: ""
  }

  /** `JSON.stringify(formData)`, as the JSON object the route receives. */
  function RequestBody(form: map<string, string>): (body: Json)
    ensures body.Obj? && body.fields.Keys == form.Keys
    ensures forall k | k in form :: body.fields[k] == Str(form[k])
  {
    Obj(map k | k in form :: Str(form[k]))
  }

  /** The submitting flag and the status right before the request is sent. */
  datatype SubmitStart = SubmitStart(isSubmitting: bool, status: SubmitStatus)

  /** The text a stored column shows back: a string, or "" for null. */
  function TextOf(v: Json): string {
    if v.Str? then v.s else ""
  }
}
