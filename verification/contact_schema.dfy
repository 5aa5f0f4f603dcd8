/** The stored shape of a contact submission and the rules the document
    schema applies before a record is written: the `trim` and `lowercase`
    setters, the `subject` default and enumeration, and the required
    fields. `createdAt` (a clock reading) is not part of this model. */
module ContactSchema {
  import opened Wrappers
  import opened JsText

  /** The enumerated values a stored `subject` may take. */
  datatype Subject = General | Support | Sales | Other

  function SubjectName(s: Subject): string {
    match s
    case General => "General"
    case Support => "Support"
    case Sales => "Sales"
    case Other => "Other"
  }

  /** The enumeration check: the subject a text names, if any. */
  function ParseSubject(v: string): (r: Option<Subject>)
    ensures r.Some? ==> SubjectName(r.value) == v
    ensures r.None? ==> forall x :: SubjectName(x) != v
  {
    if v == "General" then Some(General)
    else if v == "Support" then Some(Support)
    else if v == "Sales" then Some(Sales)
    else if v == "Other" then Some(Other)
    else None
  }

  /** Naming a subject and parsing the name back gives the same subject. */
  lemma ParseSubjectName(s: Subject)
    ensures ParseSubject(SubjectName(s)) == Some(s)
  {
  }

  /** The subject a document gets when it supplies none. */
  const DefaultSubject: Subject := General

  /** A document as handed to the schema, before setters, defaults and
      validators have run; `None` is a field left `undefined`. */
  datatype ContactDoc = ContactDoc(
    name: Option<string>,
    email: Option<string>,
    phone: Option<string>,
    subject: Option<string>,
    message: Option<string>,
    ipAddress: Option<string>,
    userAgent: Option<string>)

  /** A record as the schema accepts it for storage. */
  datatype Contact = Contact(
    name: string,
    email: string,
    phone: Option<string>,
    subject: Subject,
    message: string,
    ipAddress: Option<string>,
    userAgent: Option<string>)

  /** Why a document was refused: a required path was missing or empty, or
      `subject` held a value outside the enumeration. */
  datatype SchemaError =
    | Required(path: string, message: string)
    | NotInEnum(path: string, value: string)

  const NameRequired := "Please provide a name"
  const EmailRequired := "Please provide an email"
  const MessageRequired := "Please provide a message"

  /** A required string path is satisfied by a non-empty value; since the
      `trim` setter runs first, a value made only of white space fails. */
  predicate Filled(v: Option<string>) {
    v.Some? && !AllWhitespace(v.value)
  }

  /** The `trim` setter; an `undefined` value stays `undefined`. */
  function TrimField(v: Option<string>): Option<string> {
    match v
    case None => None
    case Some(s) => Some(Trim(s))
  }

  /** The shape every accepted record has: required text present and
      trimmed, email lower-case, phone trimmed when present. */
  predicate WellFormed(c: Contact) {
    && c.name != [] && IsTrimmed(c.name)
    && c.email != [] && IsTrimmed(c.email) && ToLower(c.email) == c.email
    && c.message != [] && IsTrimmed(c.message)
    && (c.phone.Some? ==> IsTrimmed(c.phone.value))
  }

  /** Whether a document passes every validator of the schema. */
  predicate Acceptable(doc: ContactDoc) {
    && Filled(doc.name) && Filled(doc.email) && Filled(doc.message)
    && (doc.subject.None? || ParseSubject(doc.subject.value).Some?)
  }

  function RequiredError(path: string, v: Option<string>, message: string): (e: seq<SchemaError>)
    ensures e == [] <==> Filled(v)
    ensures e != [] ==> e == [Required(path, message)]
  {
    if Filled(v) then [] else [Required(path, message)]
  }

  function EnumError(v: Option<string>): (e: seq<SchemaError>)
    ensures e == [] <==> v.None? || ParseSubject(v.value).Some?
    ensures e != [] ==> e == [NotInEnum("subject", v.value)]
  {
    if v.Some? && ParseSubject(v.value).None? then [NotInEnum("subject", v.value)] else []
  }

  /** Every validation failure of a document, in schema order: one entry
      per required path that is missing or empty once trimmed, one for a
      `subject` outside the enumeration. */
  function SchemaErrors(doc: ContactDoc): (errors: seq<SchemaError>)
    ensures errors == [] <==> Acceptable(doc)
    ensures Required("name", NameRequired) in errors <==> !Filled(doc.name)
    ensures Required("email", EmailRequired) in errors <==> !Filled(doc.email)
    ensures Required("message", MessageRequired) in errors <==> !Filled(doc.message)
    ensures forall v :: NotInEnum("subject", v) in errors <==>
      doc.subject == Some(v) && ParseSubject(v).None?
    ensures forall e :: e in errors ==>
      || e in [Required("name", NameRequired), Required("email", EmailRequired), Required("message", MessageRequired)]
      || (doc.subject.Some? && e == NotInEnum("subject", doc.subject.value))
    ensures forall i, j :: 0 <= i < j < |errors| ==> errors[i] != errors[j]
  {
    RequiredError("name", doc.name, NameRequired)
    + RequiredError("email", doc.email, EmailRequired)
    + EnumError(doc.subject)
    + RequiredError("message", doc.message, MessageRequired)
  }

  /** The record the setters and the `subject` default make of an
      acceptable document. */
  function Cast(doc: ContactDoc): (c: Contact)
    requires Acceptable(doc)
    ensures WellFormed(c)
    ensures c.name == Trim(doc.name.value)
    ensures c.email == ToLower(Trim(doc.email.value))
    ensures c.message == Trim(doc.message.value)
    ensures c.phone.Some? <==> doc.phone.Some?
    ensures doc.phone.Some? ==> c.phone.value == Trim(doc.phone.value)
    ensures doc.subject.None? ==> c.subject == DefaultSubject
    ensures doc.subject.Some? ==> SubjectName(c.subject) == doc.subject.value
    ensures c.ipAddress == doc.ipAddress && c.userAgent == doc.userAgent
  {
    LowerKeepsEmptiness(doc.email);
    var subject := if doc.subject.None? then DefaultSubject else ParseSubject(doc.subject.value).value;
    Contact(Trim(doc.name.value), ToLower(Trim(doc.email.value)), TrimField(doc.phone),
            subject, Trim(doc.message.value), doc.ipAddress, doc.userAgent)
  }

  /** Builds a document through the schema: runs the setters, applies the
      `subject` default, then validates every path and reports every
      failure. */
  function Normalize(doc: ContactDoc): (r: Result<Contact, seq<SchemaError>>)
    ensures r.Ok? <==> Acceptable(doc)
    ensures r.Ok? ==> WellFormed(r.value)
    ensures r.Ok? ==>
      && r.value.name == Trim(doc.name.value)
      && r.value.email == ToLower(Trim(doc.email.value))
      && r.value.message == Trim(doc.message.value)
    ensures r.Ok? ==>
      && (r.value.phone.Some? <==> doc.phone.Some?)
      && (doc.phone.Some? ==> r.value.phone.value == Trim(doc.phone.value))
    ensures r.Ok? ==>
      && (doc.subject.None? ==> r.value.subject == DefaultSubject)
      && (doc.subject.Some? ==> SubjectName(r.value.subject) == doc.subject.value)
    ensures r.Ok? ==> r.value.ipAddress == doc.ipAddress && r.value.userAgent == doc.userAgent
    ensures r.Err? ==> r.error == SchemaErrors(doc) && r.error != []
  {
    var errors := SchemaErrors(doc);
    if errors == [] then Ok(Cast(doc)) else Err(errors)
  }

  /** The email setters leave a value empty exactly when trimming alone
      does, and what they leave is trimmed and lower-case. */
  lemma LowerKeepsEmptiness(v: Option<string>)
    ensures v.Some? ==> (ToLower(Trim(v.value)) == [] <==> AllWhitespace(v.value))
    ensures v.Some? ==> IsTrimmed(ToLower(Trim(v.value)))
    ensures v.Some? ==> ToLower(ToLower(Trim(v.value))) == ToLower(Trim(v.value))
  {
    if v.Some? {
      TrimLowerCommute(Trim(v.value));
      TrimIdempotent(v.value);
      ToLowerIdempotent(Trim(v.value));
    }
  }

  /** The document a stored record came from: every field as stored. */
  function ToDoc(c: Contact): ContactDoc {
    ContactDoc(Some(c.name), Some(c.email), c.phone, Some(SubjectName(c.subject)),
               Some(c.message), c.ipAddress, c.userAgent)
  }

  /** Normalizing is idempotent: a well-formed record passes through the
      schema again unchanged. */
  lemma NormalizeStable(c: Contact)
    requires WellFormed(c)
    ensures Normalize(ToDoc(c)) == Ok(c)
  {
    var doc := ToDoc(c);
    TrimOfTrimmed(c.name);
    TrimOfTrimmed(c.email);
    TrimOfTrimmed(c.message);
    assert !IsWhitespace(c.name[0]) && !IsWhitespace(c.email[0]) && !IsWhitespace(c.message[0]);
    if c.phone.Some? {
      TrimOfTrimmed(c.phone.value);
    }
    ParseSubjectName(c.subject);
    assert Acceptable(doc);
    var d := Cast(doc);
    assert d.name == c.name && d.email == c.email && d.message == c.message;
    assert d.phone == c.phone;
    assert d.subject == c.subject;
    assert d == c;
  }

  /** `ipAddress` and `userAgent` carry no validator: whatever they hold,
      or whether they are set at all, never decides acceptance. */
  lemma MetadataUnconstrained(doc: ContactDoc, ip: Option<string>, agent: Option<string>)
    ensures Normalize(doc.(ipAddress := ip, userAgent := agent)).Ok? <==> Normalize(doc).Ok?
  {
  }
}
