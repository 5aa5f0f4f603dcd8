/** The validation chain in front of the contact handler: `name` and
    `message` are trimmed and must then be non-empty, `email` must pass the
    e-mail check and is then normalized. The e-mail grammar and its
    normalization belong to the validation library and are parameters
    here. */
module Validation {
  import opened Wrappers
  import opened JsText

  /** The request body as the client sent it; `None` is an absent field. */
  datatype RawBody = RawBody(
    name: Option<string>,
    email: Option<string>,
    phone: Option<string>,
    subject: Option<string>,
    message: Option<string>)

  /** One failed rule: the body path it concerns and its message. */
  datatype ValidationError = ValidationError(path: string, msg: string)

  const NameError := ValidationError("name", "Name is required")
  const EmailError := ValidationError("email", "Valid email is required")
  const MessageError := ValidationError("message", "Message cannot be empty")

  /** The body fields the handler reads once the chain has run. */
  datatype Submission = Submission(name: string, email: string, phone: Option<string>, message: string)

  /** The validation library reads an absent field as the empty string. */
  function FieldText(v: Option<string>): string {
    v.GetOr("")
  }

  /** Where a rule is declared in the chain: name, then email, then
      message. */
  function Rank(e: ValidationError): nat {
    if e == NameError then 0 else if e == EmailError then 1 else 2
  }

  /** The errors the chain reports, in the order the rules are declared:
      every failed rule appears once, in declaration order, so the first
      is the first failing field among name, email and message. */
  function Validate(body: RawBody, isEmail: string -> bool): (errors: seq<ValidationError>)
    ensures errors == [] <==>
      !AllWhitespace(FieldText(body.name)) && isEmail(FieldText(body.email))
      && !AllWhitespace(FieldText(body.message))
    ensures NameError in errors <==> AllWhitespace(FieldText(body.name))
    ensures EmailError in errors <==> !isEmail(FieldText(body.email))
    ensures MessageError in errors <==> AllWhitespace(FieldText(body.message))
    ensures forall i :: 0 <= i < |errors| ==> errors[i] in [NameError, EmailError, MessageError]
    ensures forall i, j :: 0 <= i < j < |errors| ==> Rank(errors[i]) < Rank(errors[j])
    ensures errors != [] ==>
      errors[0] ==
        if AllWhitespace(FieldText(body.name)) then NameError
        else if !isEmail(FieldText(body.email)) then EmailError
        else MessageError
  {
    (if Trim(FieldText(body.name)) == [] then [NameError] else [])
    + (if isEmail(FieldText(body.email)) then [] else [EmailError])
    + (if Trim(FieldText(body.message)) == [] then [MessageError] else [])
  }

  /** The body after the chain's sanitizers: `name` and `message` trimmed,
      `email` normalized; `phone` is untouched and `subject` is never read. */
  function Sanitize(body: RawBody, normalizeEmail: string -> string): (sub: Submission)
    ensures sub.name == Trim(FieldText(body.name)) && sub.message == Trim(FieldText(body.message))
    ensures IsTrimmed(sub.name) && IsTrimmed(sub.message)
    ensures sub.email == normalizeEmail(FieldText(body.email))
    ensures sub.phone == body.phone
  {
    Submission(Trim(FieldText(body.name)), normalizeEmail(FieldText(body.email)),
               body.phone, Trim(FieldText(body.message)))
  }

  /** Once validation passes, the name and the message the handler uses
      are non-empty. */
  lemma ValidSubmissionFilled(body: RawBody, isEmail: string -> bool, normalizeEmail: string -> string)
    requires Validate(body, isEmail) == []
    ensures Sanitize(body, normalizeEmail).name != []
    ensures Sanitize(body, normalizeEmail).message != []
    ensures isEmail(FieldText(body.email))
  {
    assert NameError !in Validate(body, isEmail);
  }

  /** A body with an empty name, a rejected email and an empty message
      reports all three failures, name first. */
  lemma EmptyFormRejected(isEmail: string -> bool)
    requires !isEmail("bad")
    ensures Validate(RawBody(Some(""), Some("bad"), None, None, Some("")), isEmail)
            == [NameError, EmailError, MessageError]
  {
  }

  /** A body whose name and message are already trimmed and non-empty and
      whose email is accepted passes the chain with name and message
      unchanged. */
  lemma CleanBodyPasses(body: RawBody, isEmail: string -> bool, normalizeEmail: string -> string)
    requires body.name.Some? && body.name.value != [] && IsTrimmed(body.name.value)
    requires body.message.Some? && body.message.value != [] && IsTrimmed(body.message.value)
    requires isEmail(FieldText(body.email))
    ensures Validate(body, isEmail) == []
    ensures Sanitize(body, normalizeEmail).name == body.name.value
    ensures Sanitize(body, normalizeEmail).message == body.message.value
  {
    TrimOfTrimmed(body.name.value);
    TrimOfTrimmed(body.message.value);
  }
}
