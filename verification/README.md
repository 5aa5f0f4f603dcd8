# Contact-form endpoint: a Dafny model

This project models the one piece of decision logic in a small portfolio
back end: the `POST /api/contact` handler. A submission is validated; if a
database is configured, a record is saved on a best-effort basis; if mail
credentials are configured, the mail transport is verified and one
notification e-mail is sent; the JSON response reports the outcome. The
model also covers the document schema the saved record goes through
(trim, lower-case e-mail, default and enumerated subject, required
fields) and the HTML rendering of the message, where every line feed
becomes `<br>`.

Everything is pure. The handler is a function from the validation result,
the sanitized body, the environment variables and the answers of the
outside world (does the store accept the write, how do transport
verification and the send end) to a `Handled` value: the response, the
side effects it attempted in order (`SaveContact`, `VerifyTransport`,
`SendMail`), and the record the store kept.

Modules:

- `Wrappers` (`wrappers.dfy`): `Option` for `undefined`, `Result`.
- `JsText` (`text.dfy`): JavaScript `trim()` over the `\s` character
  class, ASCII lower-casing, truthiness of an optional string, `a || b`.
- `ContactSchema` (`contact_schema.dfy`): the stored record and
  `Normalize`, the schema's setters, default and validators.
- `Validation` (`validation.dfy`): the validation chain (`Validate`) and
  its sanitizers (`Sanitize`). The e-mail grammar (`isEmail`) and its
  normalization (`normalizeEmail`) belong to the validation library and
  are function parameters.
- `Notification` (`notification.dfy`): the sender, recipient choice and
  subject line; the name, e-mail, phone and message of the text part; the
  name paragraph, the e-mail `mailto:` link, the phone paragraph and the
  message of the HTML part; the newline-to-`<br>` rendering and its
  inverse.
- `ContactRoute` (`contact_route.dfy`): environment, world, response and
  effects; `Notify`, `Respond`, `HandleRequest`; and the orchestration
  written as a state machine (`Step`, `Run`) proved to agree with
  `Respond`.

Four facts about the code shape the model:

- Validation runs first and returns 400 before anything else. The
  credentials check therefore happens only for valid submissions.
- The validation chain does not trim `phone`. The mail uses the phone
  exactly as sent. Only the stored copy is trimmed, by the schema.
- The e-mail is not trimmed by the chain. It must pass `isEmail` as sent
  and is then passed through `normalizeEmail`. The schema then trims
  and lower-cases the result before storing it.
- The stored `subject` is always "General". A client-supplied `subject`
  is never read.

## Model

| member | source | states |
|---|---|---|
| `Validation.Validate` | routes/contact.js:11-13 | an error is reported for a name that is white space once trimmed ("Name is required"), an email the grammar rejects ("Valid email is required"), a message that is white space once trimmed ("Message cannot be empty"); the list is empty iff all three pass, and holds each failure once, in declaration order (name, email, message) |
| `Validation.Sanitize` | routes/contact.js:11-13 | the handler sees the request's name and message trimmed, its email normalized, and its phone as sent |
| `Validation.ValidSubmissionFilled` | routes/contact.js:11-25 | once validation passes, the name and message the handler reads are non-empty and the email was accepted |
| `Validation.CleanBodyPasses` | routes/contact.js:11-25 | a body with trimmed non-empty name and message and an accepted email passes with name and message unchanged |
| `Validation.EmptyFormRejected` | routes/contact.js:11-13 | an empty name, a rejected email and an empty message give all three errors, name first |
| `ContactRoute.Respond` | routes/contact.js:14-129 | a validation failure gives 400, success false, the first error's message and the full list, and no side effect; a save is attempted, first, iff validation passed and the store URI is set; the stored record always has subject General, a phone iff the submitted phone is truthy, the request IP or remote address and the user agent; verification is attempted iff validation passed and both credentials are set; the send iff verification also succeeded; 200 iff every step succeeded; success iff 200 |
| `ContactRoute.Notify` | routes/contact.js:48-128 | missing or empty credentials give 500 "not configured" with no transport call; a failed verification gives 500 with the code's message and no send; a sent mail is preceded by verification and is composed from the submission; a failed send gives 500 with the code's message; 200 with the success message iff credentials are set and verify and send both succeed |
| `ContactRoute.HandleRequest` | routes/contact.js:10-129 | the response is 400 iff the validation chain reports an error, and then nothing was attempted; a stored record has subject General and the trimmed name and message of the request |
| `ContactRoute.TransportErrorMessage` | routes/contact.js:117-123 | the authentication message iff the code is EAUTH, the connection message iff the code is ECONNECTION, the generic message for any other or no code |
| `ContactRoute.ContactDocFor` | routes/contact.js:31-39 | the document to save has the submission's name, email and message, subject "General" whatever the client sent, the phone only when it is truthy (a falsy phone is dropped), the request IP when it is truthy and the remote address otherwise, and the request's user agent |
| `ContactRoute.Persist` | routes/contact.js:40-44 | a record is kept iff the schema accepts the document and the store accepts the write; the kept record is what the schema makes of the document |
| `ContactRoute.PersistenceIsolated` | routes/contact.js:29-45 | the store's answer never changes the response or the attempted effects |
| `ContactRoute.PersistenceOptional` | routes/contact.js:29 | with no store configured the response is the same as with one |
| `ContactRoute.NotConfiguredRegardless` | routes/contact.js:29-54 | without credentials every valid submission gets 500 "not configured", after the save attempt and with no transport call |
| `ContactRoute.TransportFailures` | routes/contact.js:65-128 | a failed verification gives 500 with its code's message and no send; a failed send gives 500 with its code's message |
| `ContactRoute.SentMailAddressing` | routes/contact.js:68-72 | the sent mail goes to the recipient override if set and non-empty, else to the sending account, with subject "New Portfolio Inquiry from " followed by the name |
| `ContactRoute.AcceptedSubmission` | routes/contact.js:10-112 | a clean submission with working mail and no store gets 200 and exactly two effects, verification then one mail to the configured recipient naming the submitter |
| `ContactRoute.MachineAgreesWithRespond` | routes/contact.js:14-129 | the orchestration as a state machine (validating, persisting, notifying, sending) finishes within four transitions, stays finished, and agrees with `Respond` on the response, the effects and the stored record |
| `Notification.ComposeMail` | routes/contact.js:68-96 | recipient, sender and subject as configured; the text part carries the name, email and message and the phone or "Not provided"; the HTML part carries the name paragraph, the email as a `mailto:` link, the phone paragraph exactly when the phone is truthy, and the message with every line feed replaced by `<br>` (so no line feed is left, and it reads back to the message when the message contains no `<br>`) |
| `Notification.Recipient` | routes/contact.js:68 | the override when it is set and non-empty, otherwise the sending account |
| `Notification.NewlinesToBr` | routes/contact.js:96 | `message.replace(/\n/g, '<br>')`, defined character by character; its meaning is stated by `NewlinesToBrReplacesAll`, `NewlinesToBrAppend` and `BrRoundTrip` |
| `Notification.NewlinesToBrReplacesAll` | routes/contact.js:96 | the result has no line feed, is longer by three characters per line feed, and is the input itself when there is no line feed |
| `Notification.BrRoundTrip` | routes/contact.js:91-96 | for a message that does not itself contain `<br>`, reading `<br>` back as line feeds recovers the message |
| `Notification.BrOnlyFromText` | routes/contact.js:96 | after a character kept as it is, the rendering shows `<br>` only where the message itself has `<br>` |
| `Notification.ReplyAddressRecoverable` | routes/contact.js:92 | the email paragraph determines the address: two different addresses never give the same paragraph |
| `Notification.NewlinesToBrAppend` | routes/contact.js:96 | the rendering distributes over concatenation |
| `ContactSchema.Normalize` | models/Contact.js:3-34 | a document is accepted iff name, email and message are present and not only white space and the subject is absent or one of the four values; an accepted record has name, email, phone and message trimmed, email lower-case, subject defaulted to General or equal to the one given, and address and agent unchanged; a refused one lists every failure |
| `ContactSchema.SchemaErrors` | models/Contact.js:6-28 | a required error for each of name, email, message iff it is missing or only white space, and an enum error carrying the subject iff a subject outside the four values was given; no other entry appears and no entry appears twice |
| `ContactSchema.Cast` | models/Contact.js:7-28 | the setters trim name, email, phone and message, lower-case the email, and default the subject to General |
| `ContactSchema.ParseSubject` | models/Contact.js:22 | a text is accepted iff it names one of General, Support, Sales, Other, and then names exactly that subject |
| `ContactSchema.NormalizeStable` | models/Contact.js:3-34 | a well-formed record passes through the schema again unchanged |
| `ContactSchema.MetadataUnconstrained` | models/Contact.js:30-31 | the IP address and user agent never decide acceptance |
| `JsText.Trim` | models/Contact.js:7 | the result neither starts nor ends with white space, is no longer than the input, and is empty iff the input is only white space |
| `JsText.TrimSlice` | models/Contact.js:7 | the result is the slice of the input found after its leading white space, with only white space before and after it |
| `JsText.TrimUnique` | models/Contact.js:7 | any trimmed slice with only white space around it is the one `Trim` returns |
| `JsText.TrimOfTrimmed` | routes/contact.js:11 | text that neither starts nor ends with white space is left unchanged |
| `JsText.TrimIdempotent` | routes/contact.js:11 | trimming twice is trimming once |
| `JsText.ToLower` | models/Contact.js:13 | the result has the input's length and no upper-case ASCII letter; each upper-case letter becomes its own lower-case letter (code point plus 32) and every other character is kept |
| `JsText.LowerKeepsTrimmed` | models/Contact.js:12-13 | lower-casing keeps a trimmed text trimmed |
| `JsText.TrimLowerCommute` | models/Contact.js:12-13 | trimming and lower-casing commute, so the order of the email setters does not matter |

## Left out

- Rate limiting (at most 5 requests per 15 minutes per address, then 429): the counting and the window live in a library, and only its constants are in this repository.
- HTTP wiring, CORS, body parsing, static files and the listener: plumbing with no decision logic.
- The database connection at start-up: it is skipped without a URI and otherwise logs and continues. Its success or failure is folded into the `storeAccepts` answer.
- The e-mail grammar and normalization of the validation library: they are the parameters `isEmail` and `normalizeEmail`, about which nothing is assumed.
- `JsText.ToLower`: maps only ASCII A to Z. JavaScript's `toLowerCase` also lower-cases non-ASCII letters.
- The `value`, `location` and `type` fields of a validation error: only the path and the message are modelled.
- Request body values that are not strings (numbers, arrays, objects): every field is a string or absent.
- The text of the schema's enum error: the error carries the path and the refused value only. The order of a refused document's errors is not significant.
- `createdAt` and the "Sent at" timestamps: they read the clock and the locale.
- The surrounding whitespace, headings and styling of the text and HTML templates: the model keeps the values interpolated into the text part and the paragraphs of the HTML part.
- Console logging.
- Asynchronous scheduling: each call to the store or the transport is a single answer in `World`.
