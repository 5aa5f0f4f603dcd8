/** The contact endpoint's handler: validation result, best-effort
    persistence, credentials check, transport verification, send, and the
    JSON response. The environment, the store and the mail transport are
    inputs; the handler's result records which side effects it attempted,
    in order, and which record the store kept. */
module ContactRoute {
  import opened Wrappers
  import opened JsText
  import opened ContactSchema
  import opened Validation
  import opened Notification

  /** The environment variables the handler reads. */
  datatype Env = Env(
    mongoUri: Option<string>,
    emailUser: Option<string>,
    emailPass: Option<string>,
    recipientEmail: Option<string>)

  /** How a call into the mail transport ended: it succeeded, or it threw an
      error that may carry a `code`. */
  datatype Transport = Succeeded | Failed(code: Option<string>)

  /** What the outside world answers: whether the store accepts a valid
      document, and how transport verification and the send end. */
  datatype World = World(storeAccepts: bool, verify: Transport, send: Transport)

  /** The connection details the handler copies into the stored record. */
  datatype Client = Client(ip: Option<string>, remoteAddress: Option<string>, userAgent: Option<string>)

  datatype Request = Request(body: RawBody, client: Client)

  /** The JSON response: `errors` is only present on a validation failure. */
  datatype Response = Response(status: int, success: bool, message: string, errors: Option<seq<ValidationError>>)

  /** A side effect the handler attempts. */
  datatype Effect =
    | SaveContact(doc: ContactDoc)
    | VerifyTransport
    | SendMail(mail: Mail)

  /** The handler's result: the response, the side effects it attempted in
      order, and the record the store kept, if any. */
  datatype Handled = Handled(response: Response, effects: seq<Effect>, stored: Option<Contact>)

  const SuccessMessage := "Your inquiry has been sent successfully!"
  const NotConfiguredMessage := "Email service not configured. Please contact the administrator."
  const AuthFailedMessage := "Email authentication failed. Please check email credentials."
  const ConnectionFailedMessage := "Could not connect to email server. Please try again later."
  const GenericFailureMessage := "Server error. Could not send email."

  /** Both halves of the mail credential are set and non-empty. */
  predicate CredentialsSet(env: Env) {
    Truthy(env.emailUser) && Truthy(env.emailPass)
  }

  /** The user-facing message for a transport error, chosen by its code. */
  function TransportErrorMessage(code: Option<string>): (m: string)
    ensures m == AuthFailedMessage <==> code == Some("EAUTH")
    ensures m == ConnectionFailedMessage <==> code == Some("ECONNECTION")
    ensures m == GenericFailureMessage <==> code != Some("EAUTH") && code != Some("ECONNECTION")
  {
    if code == Some("EAUTH") then AuthFailedMessage
    else if code == Some("ECONNECTION") then ConnectionFailedMessage
    else GenericFailureMessage
  }

  function Failure(code: Option<string>): Response {
    Response(500, false, TransportErrorMessage(code), None)
  }

  /** The document the handler asks the store to save: the submission's
      fields, a fixed subject, the phone only when it is truthy, and the
      client's address and agent. */
  function ContactDocFor(sub: Submission, client: Client): (doc: ContactDoc)
    ensures doc.subject == Some(SubjectName(General))
    ensures doc.name == Some(sub.name) && doc.email == Some(sub.email) && doc.message == Some(sub.message)
    ensures doc.phone.Some? <==> Truthy(sub.phone)
    ensures doc.phone.Some? ==> doc.phone == sub.phone
    ensures Truthy(client.ip) ==> doc.ipAddress == client.ip
    ensures !Truthy(client.ip) ==> doc.ipAddress == client.remoteAddress
    ensures Truthy(doc.ipAddress) <==> Truthy(client.ip) || Truthy(client.remoteAddress)
    ensures doc.userAgent == client.userAgent
  {
    ContactDoc(
      Some(sub.name),
      Some(sub.email),
      if Truthy(sub.phone) then sub.phone else None,
      Some(SubjectName(General)),
      Some(sub.message),
      Or(client.ip, client.remoteAddress),
      client.userAgent)
  }

  /** The save itself: the schema must accept the document and the store
      must accept the write; either failure is swallowed by the caller. */
  function Persist(doc: ContactDoc, storeAccepts: bool): (stored: Option<Contact>)
    ensures stored.Some? <==> storeAccepts && Acceptable(doc)
    ensures stored.Some? ==> Normalize(doc) == Ok(stored.value)
  {
    match Normalize(doc)
    case Ok(c) => if storeAccepts then Some(c) else None
    case Err(_) => None
  }

  predicate SaveAttempted(effects: seq<Effect>) {
    exists i :: 0 <= i < |effects| && effects[i].SaveContact?
  }

  predicate VerifyAttempted(effects: seq<Effect>) {
    exists i :: 0 <= i < |effects| && effects[i].VerifyTransport?
  }

  predicate SendAttempted(effects: seq<Effect>) {
    exists i :: 0 <= i < |effects| && effects[i].SendMail?
  }

  /** An effect happens in a sequence of effects exactly when it happens in
      one of its two parts. */
  lemma AttemptedAppend(a: seq<Effect>, b: seq<Effect>)
    ensures SaveAttempted(a + b) <==> SaveAttempted(a) || SaveAttempted(b)
    ensures VerifyAttempted(a + b) <==> VerifyAttempted(a) || VerifyAttempted(b)
    ensures SendAttempted(a + b) <==> SendAttempted(a) || SendAttempted(b)
  {
    if SaveAttempted(a + b) {
      var i :| 0 <= i < |a + b| && (a + b)[i].SaveContact?;
      if i >= |a| { assert b[i - |a|].SaveContact?; }
    }
    if VerifyAttempted(a + b) {
      var i :| 0 <= i < |a + b| && (a + b)[i].VerifyTransport?;
      if i >= |a| { assert b[i - |a|].VerifyTransport?; }
    }
    if SendAttempted(a + b) {
      var i :| 0 <= i < |a + b| && (a + b)[i].SendMail?;
      if i >= |a| { assert b[i - |a|].SendMail?; }
    }
    if SaveAttempted(b) {
      var i :| 0 <= i < |b| && b[i].SaveContact?;
      assert (a + b)[|a| + i].SaveContact?;
    }
    if VerifyAttempted(b) {
      var i :| 0 <= i < |b| && b[i].VerifyTransport?;
      assert (a + b)[|a| + i].VerifyTransport?;
    }
    if SendAttempted(b) {
      var i :| 0 <= i < |b| && b[i].SendMail?;
      assert (a + b)[|a| + i].SendMail?;
    }
    if SaveAttempted(a) {
      var i :| 0 <= i < |a| && a[i].SaveContact?;
      assert (a + b)[i].SaveContact?;
    }
    if VerifyAttempted(a) {
      var i :| 0 <= i < |a| && a[i].VerifyTransport?;
      assert (a + b)[i].VerifyTransport?;
    }
    if SendAttempted(a) {
      var i :| 0 <= i < |a| && a[i].SendMail?;
      assert (a + b)[i].SendMail?;
    }
  }

  /** The response and effects of the notification stage. */
  datatype Notified = Notified(response: Response, effects: seq<Effect>)

  /** Everything after persistence: the credentials check, transport
      verification and the send. */
  function Notify(sub: Submission, env: Env, world: World): (n: Notified)
    ensures !SaveAttempted(n.effects)
    ensures !CredentialsSet(env) ==>
      n == Notified(Response(500, false, NotConfiguredMessage, None), [])
    ensures VerifyAttempted(n.effects) <==> CredentialsSet(env)
    ensures SendAttempted(n.effects) <==> CredentialsSet(env) && world.verify.Succeeded?
    ensures CredentialsSet(env) && world.verify.Failed? ==>
      n == Notified(Failure(world.verify.code), [VerifyTransport])
    ensures SendAttempted(n.effects) ==>
      n.effects == [VerifyTransport, SendMail(ComposeMail(sub, env.emailUser.value, env.recipientEmail))]
    ensures SendAttempted(n.effects) && world.send.Failed? ==>
      n.response == Failure(world.send.code)
    ensures n.response.status == 200 <==>
      CredentialsSet(env) && world.verify.Succeeded? && world.send.Succeeded?
    ensures n.response.status == 200 ==> n.response == Response(200, true, SuccessMessage, None)
    ensures n.response.status != 200 ==> n.response.status == 500 && !n.response.success
    ensures n.response.errors.None?
  {
    if !Truthy(env.emailUser) || !Truthy(env.emailPass) then
      Notified(Response(500, false, NotConfiguredMessage, None), [])
    else
      match world.verify
      case Failed(code) =>
        assert [VerifyTransport][0].VerifyTransport?;
        Notified(Failure(code), [VerifyTransport])
      case Succeeded =>
        var mail := ComposeMail(sub, env.emailUser.value, env.recipientEmail);
        var effects := [VerifyTransport, SendMail(mail)];
        assert effects[0].VerifyTransport? && effects[1].SendMail?;
        match world.send
        case Failed(code) => Notified(Failure(code), effects)
        case Succeeded => Notified(Response(200, true, SuccessMessage, None), effects)
  }

  /** The handler after the validation chain has run, given the errors it
      reported and the sanitized body. */
  function Respond(errors: seq<ValidationError>, sub: Submission, client: Client, env: Env, world: World): (h: Handled)
    // Validation failure: 400 with the first message and the full list, no side effect.
    ensures errors != [] ==>
      h == Handled(Response(400, false, errors[0].msg, Some(errors)), [], None)
    // Persistence: attempted first, exactly when validation passed and a store is configured.
    ensures SaveAttempted(h.effects) <==> errors == [] && Truthy(env.mongoUri)
    ensures SaveAttempted(h.effects) ==> h.effects[0] == SaveContact(ContactDocFor(sub, client))
    ensures h.stored.Some? <==>
      SaveAttempted(h.effects) && world.storeAccepts && Acceptable(ContactDocFor(sub, client))
    ensures h.stored.Some? ==> Normalize(ContactDocFor(sub, client)) == Ok(h.stored.value)
    ensures h.stored.Some? ==> h.stored.value.subject == General
    ensures h.stored.Some? ==> (h.stored.value.phone.Some? <==> Truthy(sub.phone))
    ensures h.stored.Some? ==>
      && h.stored.value.ipAddress == Or(client.ip, client.remoteAddress)
      && h.stored.value.userAgent == client.userAgent
    // After persistence, the notification stage decides the response on its own.
    ensures errors == [] ==>
      var n := Notify(sub, env, world);
      && h.response == n.response
      && h.effects == (if Truthy(env.mongoUri) then [SaveContact(ContactDocFor(sub, client))] else []) + n.effects
    ensures VerifyAttempted(h.effects) <==> errors == [] && CredentialsSet(env)
    ensures SendAttempted(h.effects) <==> VerifyAttempted(h.effects) && world.verify.Succeeded?
    // Success: 200 exactly when every step succeeded.
    ensures h.response.status == 200 <==>
      errors == [] && CredentialsSet(env) && world.verify.Succeeded? && world.send.Succeeded?
    ensures h.response.success <==> h.response.status == 200
  {
    if errors != [] then
      Handled(Response(400, false, errors[0].msg, Some(errors)), [], None)
    else
      var doc := ContactDocFor(sub, client);
      var saves := if Truthy(env.mongoUri) then [SaveContact(doc)] else [];
      var stored := if Truthy(env.mongoUri) then Persist(doc, world.storeAccepts) else None;
      var n := Notify(sub, env, world);
      AttemptedAppend(saves, n.effects);
      assert saves != [] ==> saves[0].SaveContact?;
      assert SaveAttempted(saves) <==> saves != [];
      Handled(n.response, saves + n.effects, stored)
  }

  /** The whole endpoint: the validation chain, then the handler on the
      sanitized body. */
  function HandleRequest(req: Request, env: Env, world: World,
                         isEmail: string -> bool, normalizeEmail: string -> string): (h: Handled)
    ensures h.response.status == 400 <==> Validate(req.body, isEmail) != []
    ensures h.response.status == 400 ==> h.effects == []
    ensures h.stored.Some? ==>
      && h.stored.value.subject == General
      && h.stored.value.name == Trim(FieldText(req.body.name))
      && h.stored.value.message == Trim(FieldText(req.body.message))
  {
    var errors := Validate(req.body, isEmail);
    var sub := Sanitize(req.body, normalizeEmail);
    var h := Respond(errors, sub, req.client, env, world);
    if h.stored.Some? then
      TrimIdempotent(FieldText(req.body.name));
      TrimIdempotent(FieldText(req.body.message));
      h
    else h
  }

  /** The store's answer never changes the response or the attempted
      effects: a failed write is swallowed. */
  lemma PersistenceIsolated(errors: seq<ValidationError>, sub: Submission, client: Client, env: Env,
                            w1: World, w2: World)
    requires w1.verify == w2.verify && w1.send == w2.send
    ensures Respond(errors, sub, client, env, w1).response == Respond(errors, sub, client, env, w2).response
    ensures Respond(errors, sub, client, env, w1).effects == Respond(errors, sub, client, env, w2).effects
  {
  }

  /** Persistence is never on the success path: with no store configured
      the response is the same as with one. */
  lemma PersistenceOptional(errors: seq<ValidationError>, sub: Submission, client: Client, env: Env, world: World)
    ensures Respond(errors, sub, client, env.(mongoUri := None), world).response
         == Respond(errors, sub, client, env, world).response
  {
  }

  /** Missing credentials give the "not configured" response whatever the
      store does, after the save attempt and before any transport call. */
  lemma NotConfiguredRegardless(errors: seq<ValidationError>, sub: Submission, client: Client, env: Env, world: World)
    requires errors == [] && !CredentialsSet(env)
    ensures Respond(errors, sub, client, env, world).response == Response(500, false, NotConfiguredMessage, None)
    ensures Respond(errors, sub, client, env, world).effects
         == if Truthy(env.mongoUri) then [SaveContact(ContactDocFor(sub, client))] else []
  {
  }

  /** A transport failure is a 500 whose message is chosen by the error
      code; a failed verification prevents the send. */
  lemma TransportFailures(errors: seq<ValidationError>, sub: Submission, client: Client, env: Env, world: World)
    requires errors == [] && CredentialsSet(env)
    ensures world.verify.Failed? ==>
      && Respond(errors, sub, client, env, world).response == Failure(world.verify.code)
      && !SendAttempted(Respond(errors, sub, client, env, world).effects)
    ensures world.verify.Succeeded? && world.send.Failed? ==>
      Respond(errors, sub, client, env, world).response == Failure(world.send.code)
  {
  }

  /** The mail that is sent goes to the configured recipient, or else to
      the sending account, with the submitter's name in its subject. */
  lemma SentMailAddressing(errors: seq<ValidationError>, sub: Submission, client: Client, env: Env, world: World)
    requires SendAttempted(Respond(errors, sub, client, env, world).effects)
    ensures var effects := Respond(errors, sub, client, env, world).effects;
      && effects[|effects| - 1].SendMail?
      && effects[|effects| - 1].mail.to ==
           (if Truthy(env.recipientEmail) then env.recipientEmail.value else env.emailUser.value)
      && effects[|effects| - 1].mail.subject == "New Portfolio Inquiry from " + sub.name
  {
  }

  /** A well-formed submission with working mail is accepted, and exactly
      one mail, naming the submitter, goes to the configured recipient. */
  lemma AcceptedSubmission(name: string, email: string, message: string, env: Env, world: World,
                           isEmail: string -> bool, normalizeEmail: string -> string)
    requires name != [] && IsTrimmed(name) && message != [] && IsTrimmed(message) && isEmail(email)
    requires CredentialsSet(env) && !Truthy(env.mongoUri)
    requires world.verify.Succeeded? && world.send.Succeeded?
    ensures var req := Request(RawBody(Some(name), Some(email), None, None, Some(message)),
                               Client(None, None, None));
      var h := HandleRequest(req, env, world, isEmail, normalizeEmail);
      && h.response == Response(200, true, SuccessMessage, None)
      && |h.effects| == 2
      && h.effects[0] == VerifyTransport
      && h.effects[1].SendMail?
      && h.effects[1].mail.to == Recipient(env.recipientEmail, env.emailUser.value)
      && h.effects[1].mail.subject == SubjectPrefix + name
  {
    var req := Request(RawBody(Some(name), Some(email), None, None, Some(message)),
                       Client(None, None, None));
    CleanBodyPasses(req.body, isEmail, normalizeEmail);
    var errors := Validate(req.body, isEmail);
    var sub := Sanitize(req.body, normalizeEmail);
    assert errors == [] && sub.name == name;
    var n := Notify(sub, env, world);
    assert SendAttempted(n.effects) && n.response.status == 200;
    var mail := ComposeMail(sub, env.emailUser.value, env.recipientEmail);
    assert n.effects == [VerifyTransport, SendMail(mail)];
    assert mail.to == Recipient(env.recipientEmail, env.emailUser.value);
    assert mail.subject == SubjectPrefix + name;
    var h := Respond(errors, sub, req.client, env, world);
    assert h.effects == n.effects && h.response == n.response;
    assert h == HandleRequest(req, env, world, isEmail, normalizeEmail);
  }

  /** The orchestration as a state machine: its stages run in a fixed
      order and end in one terminal response. */
  datatype Stage = Validating | PersistingBestEffort | Notifying | Sending | Finished(response: Response)

  datatype Machine = Machine(stage: Stage, effects: seq<Effect>, stored: Option<Contact>)

  /** One transition of the orchestration. */
  function Step(m: Machine, errors: seq<ValidationError>, sub: Submission, client: Client, env: Env, world: World): Machine {
    match m.stage
    case Validating =>
      if errors != [] then m.(stage := Finished(Response(400, false, errors[0].msg, Some(errors))))
      else m.(stage := PersistingBestEffort)
    case PersistingBestEffort =>
      if Truthy(env.mongoUri) then
        var doc := ContactDocFor(sub, client);
        Machine(Notifying, m.effects + [SaveContact(doc)], Persist(doc, world.storeAccepts))
      else m.(stage := Notifying)
    case Notifying =>
      if !CredentialsSet(env) then m.(stage := Finished(Response(500, false, NotConfiguredMessage, None)))
      else
        var verified := m.effects + [VerifyTransport];
        (match world.verify
         case Failed(code) => m.(stage := Finished(Failure(code)), effects := verified)
         case Succeeded => m.(stage := Sending, effects := verified))
    case Sending =>
      var sent := m.effects + [SendMail(ComposeMail(sub, env.emailUser.GetOr(""), env.recipientEmail))];
      (match world.send
       case Failed(code) => m.(stage := Finished(Failure(code)), effects := sent)
       case Succeeded => m.(stage := Finished(Response(200, true, SuccessMessage, None)), effects := sent))
    case Finished(_) => m
  }

  /** `fuel` transitions from `m`. */
  function Run(m: Machine, fuel: nat, errors: seq<ValidationError>, sub: Submission, client: Client,
               env: Env, world: World): Machine
    decreases fuel
  {
    if fuel == 0 then m else Run(Step(m, errors, sub, client, env, world), fuel - 1, errors, sub, client, env, world)
  }

  /** Started at validation, the state machine finishes within four
      transitions, stays finished, and agrees with the handler on the
      response, the attempted effects and the stored record. */
  lemma {:induction false} MachineAgreesWithRespond(errors: seq<ValidationError>, sub: Submission, client: Client,
                                                     env: Env, world: World, extra: nat)
    ensures var m := Run(Machine(Validating, [], None), 4 + extra, errors, sub, client, env, world);
      var h := Respond(errors, sub, client, env, world);
      m == Machine(Finished(h.response), h.effects, h.stored)
  {
    var m0 := Machine(Validating, [], None);
    var m1 := Step(m0, errors, sub, client, env, world);
    var m2 := Step(m1, errors, sub, client, env, world);
    var m3 := Step(m2, errors, sub, client, env, world);
    var m4 := Step(m3, errors, sub, client, env, world);
    MachineFinishes(errors, sub, client, env, world);
    RunFinished(m4, extra, errors, sub, client, env, world);
    assert Run(m0, 4 + extra, errors, sub, client, env, world) == Run(m1, 3 + extra, errors, sub, client, env, world);
    assert Run(m1, 3 + extra, errors, sub, client, env, world) == Run(m2, 2 + extra, errors, sub, client, env, world);
    assert Run(m2, 2 + extra, errors, sub, client, env, world) == Run(m3, 1 + extra, errors, sub, client, env, world);
    assert Run(m3, 1 + extra, errors, sub, client, env, world) == Run(m4, extra, errors, sub, client, env, world);
  }

  /** Four transitions from validation reach the handler's outcome. */
  lemma MachineFinishes(errors: seq<ValidationError>, sub: Submission, client: Client, env: Env, world: World)
    ensures var m1 := Step(Machine(Validating, [], None), errors, sub, client, env, world);
      var m2 := Step(m1, errors, sub, client, env, world);
      var m3 := Step(m2, errors, sub, client, env, world);
      var h := Respond(errors, sub, client, env, world);
      Step(m3, errors, sub, client, env, world) == Machine(Finished(h.response), h.effects, h.stored)
  {
    var m1 := Step(Machine(Validating, [], None), errors, sub, client, env, world);
    var m2 := Step(m1, errors, sub, client, env, world);
    var h := Respond(errors, sub, client, env, world);
    if errors == [] {
      var doc := ContactDocFor(sub, client);
      var saves := if Truthy(env.mongoUri) then [SaveContact(doc)] else [];
      var stored := if Truthy(env.mongoUri) then Persist(doc, world.storeAccepts) else None;
      assert m2 == Machine(Notifying, saves, stored);
      NotifyingSteps(m2, errors, sub, client, env, world);
    }
  }

  /** From the notification stage, two transitions perform `Notify`. */
  lemma NotifyingSteps(m: Machine, errors: seq<ValidationError>, sub: Submission, client: Client, env: Env, world: World)
    requires m.stage == Notifying
    ensures var n := Notify(sub, env, world);
      Step(Step(m, errors, sub, client, env, world), errors, sub, client, env, world)
        == Machine(Finished(n.response), m.effects + n.effects, m.stored)
  {
    var n := Notify(sub, env, world);
    var m1 := Step(m, errors, sub, client, env, world);
    if !CredentialsSet(env) {
      assert m1 == m.(stage := Finished(n.response));
      assert m.effects + n.effects == m.effects;
    } else if world.verify.Failed? {
      assert m1 == Machine(Finished(n.response), m.effects + n.effects, m.stored);
    } else {
      assert m1 == Machine(Sending, m.effects + [VerifyTransport], m.stored);
      assert env.emailUser.GetOr("") == env.emailUser.value;
      assert (m.effects + [VerifyTransport]) + [SendMail(ComposeMail(sub, env.emailUser.value, env.recipientEmail))]
          == m.effects + n.effects;
    }
  }

  /** A finished machine takes no further transition. */
  lemma {:induction false} RunFinished(m: Machine, fuel: nat, errors: seq<ValidationError>, sub: Submission,
                                       client: Client, env: Env, world: World)
    requires m.stage.Finished?
    ensures Run(m, fuel, errors, sub, client, env, world) == m
    decreases fuel
  {
    if fuel > 0 {
      RunFinished(m, fuel - 1, errors, sub, client, env, world);
    }
  }
}
