/** The contact-form endpoint `/api/contact` as a pure function. The mail
    server is an oracle: the handler is given the outcome `verify` would
    have and the outcome `sendMail` would have, and returns the response
    together with the calls it made on the mail library, in order. */
module ContactRoute {
  import opened Js
  import opened Mailer
  import EmailPattern
  import ErrorClassifier

  /** The fields of the JSON body the handler destructures; `None` is a
      field that is absent (read as `undefined`). */
  datatype Body = Body(name: Option<string>, email: Option<string>, message: Option<string>)

  /** The result of `request.json()`: the body, or the error it throws. */
  datatype Payload = Parsed(body: Body) | Unparsable(err: Failure)

  /** The HTTP methods the route exports a handler for. */
  datatype Method = GET | POST | PUT | DELETE

  /** A JSON response: its status and the fields of its body. `None` marks a
      field whose value is `undefined`, which JSON serialisation leaves out. */
  datatype Response = Response(
    status: int,
    message: string,
    hint: Option<string>,
    messageId: Option<string>,
    error: Option<string>,
    code: Option<string>)

  /** The handler's response and the mail-library calls it made. */
  datatype Handled = Handled(response: Response, calls: seq<Call>)

  const FieldsRequired := "All fields are required"
  const InvalidEmailFormat := "Invalid email format"
  const LoginRejectedMessage := "Email authentication failed. Please check if app-specific password is configured in Zoho."
  const LoginRejectedHint := "You may need to generate an app-specific password in Zoho Mail settings"
  const SentMessage := "Email sent successfully"
  const MethodNotAllowed := "Method not allowed"
  const SenderName := "Carbie Contact Form"
  const SubjectPrefix := "Contact Form: "

  /** The markup around the three values in the HTML body (styling left out). */
  const HtmlBeforeName := "<h2>New Contact Form Submission</h2><div class=\"label\">Name:</div><div class=\"value\">"
  const HtmlBeforeEmail := "</div><div class=\"label\">Email:</div><div class=\"value\">"
  const HtmlBeforeMessage := "</div><div class=\"label\">Message:</div><div class=\"value message\">"
  const HtmlAfterMessage := "</div>"

  /** A response with only a status and a message. */
  function Plain(status: int, message: string): Response {
    Response(status, message, None, None, None, None)
  }

  /** All three fields are present and non-empty strings. */
  predicate HasRequiredFields(b: Body) {
    Truthy(b.name) && Truthy(b.email) && Truthy(b.message)
  }

  /** A submission that passes both validation steps, with the email shape
      stated as the language of the route's regular expression. */
  predicate Acceptable(p: Payload) {
    && p.Parsed?
    && HasRequiredFields(p.body)
    && EmailPattern.RegexMatches(p.body.email.value)
  }

  /** The Zoho-specific case of a failed `verify`. */
  predicate IsInvalidLogin(err: Failure) {
    err.message.Some? && Includes(err.message.value, "Invalid login")
  }

  /** The response of the catch block for an error `err`. */
  function Caught(err: Failure, env: Env): (r: Response)
    ensures r.status == 500
    ensures r.message == ErrorClassifier.Classify(err).message
    ensures r.hint == Some(ErrorClassifier.Classify(err).hint)
    ensures r.messageId == None
    ensures r.code == err.code
    ensures IsDevelopment(env) ==> r.error == err.message
    ensures !IsDevelopment(env) ==> r.error == None
  {
    var d := ErrorClassifier.Classify(err);
    Response(500, d.message, Some(d.hint), None, if IsDevelopment(env) then err.message else None, err.code)
  }

  /** The plain-text body of the message: the three values, each after its label. */
  function MailText(name: string, email: string, message: string): (t: string)
    ensures Includes(t, "Name: " + name)
    ensures Includes(t, "Email: " + email)
    ensures Includes(t, message)
  {
    var nameLine, emailLine := "Name: " + name, "Email: " + email;
    IncludesFilledHoles("\n", nameLine, "\n", emailLine, "\n\nMessage:\n", message, "\n      ");
    "\n" + nameLine + "\n" + emailLine + "\n\nMessage:\n" + message + "\n      "
  }

  /** The HTML body of the message: the three values are inserted verbatim,
      without escaping. */
  function MailHtml(name: string, email: string, message: string): (t: string)
    ensures Includes(t, name) && Includes(t, email) && Includes(t, message)
  {
    IncludesFilledHoles(HtmlBeforeName, name, HtmlBeforeEmail, email, HtmlBeforeMessage, message, HtmlAfterMessage);
    HtmlBeforeName + name + HtmlBeforeEmail + email + HtmlBeforeMessage + message + HtmlAfterMessage
  }

  /** The message passed to `sendMail` for a validated submission. */
  function ComposeMail(name: string, email: string, message: string, env: Env): (m: Mail)
    ensures m.subject == SubjectPrefix + name
    ensures m.replyTo == email
    ensures m.to == env.smtpFrom
    ensures m.from == "\"" + SenderName + "\" <" + Interpolate(env.smtpFrom) + ">"
  {
    Mail(
      "\"" + SenderName + "\" <" + Interpolate(env.smtpFrom) + ">",
      env.smtpFrom,
      SubjectPrefix + name,
      MailText(name, email, message),
      MailHtml(name, email, message),
      email)
  }

  /** The part of `POST` after validation: create and verify the transport,
      then send one message and report the outcome. A verify error that
      mentions "Invalid login" is answered directly; any other one is
      rethrown inside the outer `try`, so the catch block classifies it. */
  function Deliver(name: string, email: string, message: string, env: Env, verify: VerifyOutcome, send: SendOutcome): (h: Handled)
    ensures verify.VerifyFailed? ==> h.calls == [CreateTransport(ConfigOf(env)), Verify]
    ensures verify.Verified? ==> h.calls == [CreateTransport(ConfigOf(env)), Verify, SendMail(ComposeMail(name, email, message, env))]
    ensures h.response.status == 200 <==> verify == Verified && send.Sent?
    ensures h.response.status != 200 ==> h.response.status == 500
  {
    match verify
    case VerifyFailed(err) =>
      if IsInvalidLogin(err) then
        Handled(Response(500, LoginRejectedMessage, Some(LoginRejectedHint), None, None, None), [CreateTransport(ConfigOf(env)), Verify])
      else
        Handled(Caught(err, env), [CreateTransport(ConfigOf(env)), Verify])
    case Verified =>
      var calls := [CreateTransport(ConfigOf(env)), Verify, SendMail(ComposeMail(name, email, message, env))];
      match send
      case Sent(id) => Handled(Response(200, SentMessage, None, Some(id), None, None), calls)
      case SendFailed(err) => Handled(Caught(err, env), calls)
  }

  /** `POST /api/contact`. Validation runs first and makes no call on the
      mail library; only an acceptable submission reaches the transport. */
  function Post(p: Payload, env: Env, verify: VerifyOutcome, send: SendOutcome): (h: Handled)
    ensures Acceptable(p) ==> h == Deliver(p.body.name.value, p.body.email.value, p.body.message.value, env, verify, send)
    ensures !Acceptable(p) ==> h.calls == []
    ensures h.response.status == 400 <==> p.Parsed? && !Acceptable(p)
    ensures h.response.status == 200 <==> Acceptable(p) && verify == Verified && send.Sent?
    ensures h.response.status == 200 || h.response.status == 400 || h.response.status == 500
  {
    match p
    case Unparsable(err) => Handled(Caught(err, env), [])
    case Parsed(b) =>
      if !HasRequiredFields(b) then
        Handled(Plain(400, FieldsRequired), [])
      else
        EmailPattern.TestIsRegex(b.email.value);
        if !EmailPattern.Test(b.email.value) then
          Handled(Plain(400, InvalidEmailFormat), [])
        else
          Deliver(b.name.value, b.email.value, b.message.value, env, verify, send)
  }

  /** The transport is created and verified first, and at most one more
      call follows. */
  lemma DeliverOpensTransport(name: string, email: string, message: string, env: Env, verify: VerifyOutcome, send: SendOutcome)
    ensures var calls := Deliver(name, email, message, env, verify, send).calls;
      && 2 <= |calls| <= 3
      && calls[0] == CreateTransport(ConfigOf(env))
      && calls[1] == Verify
  {
  }

  /** A message is sent only as the third call, after a successful verify. */
  lemma DeliverSendsOnlyAfterVerify(name: string, email: string, message: string, env: Env, verify: VerifyOutcome, send: SendOutcome)
    ensures var calls := Deliver(name, email, message, env, verify, send).calls;
      forall k | 0 <= k < |calls| && calls[k].SendMail? :: k == 2 && verify.Verified?
  {
    var calls := Deliver(name, email, message, env, verify, send).calls;
    forall k | 0 <= k < |calls| && calls[k].SendMail?
      ensures k == 2 && verify.Verified?
    {
      DeliverOpensTransport(name, email, message, env, verify, send);
      assert k != 0 && k != 1;
    }
  }

  /** The mail library is called only for an acceptable submission, and
      then in the order create, verify, at most one send after a
      successful verify. */
  lemma CallsInOrder(p: Payload, env: Env, verify: VerifyOutcome, send: SendOutcome)
    ensures var calls := Post(p, env, verify, send).calls;
      && (calls != [] <==> Acceptable(p))
      && (calls != [] ==> |calls| >= 2 && calls[0] == CreateTransport(ConfigOf(env)) && calls[1] == Verify)
      && |calls| <= 3
      && forall k | 0 <= k < |calls| && calls[k].SendMail? :: k == 2 && verify.Verified?
  {
    if Acceptable(p) {
      DeliverOpensTransport(p.body.name.value, p.body.email.value, p.body.message.value, env, verify, send);
      DeliverSendsOnlyAfterVerify(p.body.name.value, p.body.email.value, p.body.message.value, env, verify, send);
    }
  }

  /** Both bodies of the message carry the submitted values: the text body
      each after its label, the HTML body verbatim. */
  lemma MailCarriesSubmission(name: string, email: string, message: string, env: Env)
    ensures var m := ComposeMail(name, email, message, env);
      && Includes(m.text, "Name: " + name)
      && Includes(m.text, "Email: " + email)
      && Includes(m.text, message)
      && Includes(m.html, name) && Includes(m.html, email) && Includes(m.html, message)
  {
    var _ := MailText(name, email, message);
    var _ := MailHtml(name, email, message);
  }

  /** The route as a whole: `POST` is handled above; `GET`, `PUT` and
      `DELETE` answer 405 and touch nothing. */
  function Route(m: Method, p: Payload, env: Env, verify: VerifyOutcome, send: SendOutcome): (h: Handled)
    ensures m != POST ==> h == Handled(Plain(405, MethodNotAllowed), [])
    ensures h.response.status == 405 <==> m != POST
  {
    match m
    case POST => Post(p, env, verify, send)
    case GET => Handled(Plain(405, MethodNotAllowed), [])
    case PUT => Handled(Plain(405, MethodNotAllowed), [])
    case DELETE => Handled(Plain(405, MethodNotAllowed), [])
  }

  /** A missing or empty field is reported before the email is looked at,
      whatever the email, the environment or the mail server would do. */
  lemma MissingFieldRejected(b: Body, env: Env, verify: VerifyOutcome, send: SendOutcome)
    requires !HasRequiredFields(b)
    ensures Post(Parsed(b), env, verify, send) == Handled(Plain(400, FieldsRequired), [])
  {
  }

  /** With all fields present, an email outside the expression's language is
      rejected with no call on the mail library. */
  lemma InvalidEmailRejected(b: Body, env: Env, verify: VerifyOutcome, send: SendOutcome)
    requires HasRequiredFields(b)
    requires !EmailPattern.RegexMatches(b.email.value)
    ensures Post(Parsed(b), env, verify, send) == Handled(Plain(400, InvalidEmailFormat), [])
  {
    EmailPattern.TestIsRegex(b.email.value);
  }

  /** A rejected submission gets the same answer whatever the environment
      and the mail server: nothing outside the request is consulted. */
  lemma RejectionIsLocal(b: Body, env1: Env, env2: Env, v1: VerifyOutcome, v2: VerifyOutcome, s1: SendOutcome, s2: SendOutcome)
    requires !Acceptable(Parsed(b))
    ensures Post(Parsed(b), env1, v1, s1) == Post(Parsed(b), env2, v2, s2)
  {
    if HasRequiredFields(b) {
      EmailPattern.TestIsRegex(b.email.value);
    }
  }

  /** A body that cannot be parsed is classified by the catch block before
      anything is validated or called. */
  lemma UnparsableBodyClassified(err: Failure, env: Env, verify: VerifyOutcome, send: SendOutcome)
    ensures Post(Unparsable(err), env, verify, send) == Handled(Caught(err, env), [])
  {
  }

  /** A verify error mentioning "Invalid login" gets the fixed Zoho advice,
      and no message is sent. */
  lemma InvalidLoginStopsBeforeSend(p: Payload, env: Env, err: Failure, send: SendOutcome)
    requires Acceptable(p)
    requires IsInvalidLogin(err)
    ensures Post(p, env, VerifyFailed(err), send).response
         == Response(500, LoginRejectedMessage, Some(LoginRejectedHint), None, None, None)
    ensures Post(p, env, VerifyFailed(err), send).calls == [CreateTransport(ConfigOf(env)), Verify]
  {
  }

  /** Any other verify error is rethrown inside the outer `try`, so it is
      classified exactly like a send error, and no message is sent. */
  lemma OtherVerifyFailureClassified(p: Payload, env: Env, err: Failure, send: SendOutcome)
    requires Acceptable(p)
    requires !IsInvalidLogin(err)
    ensures Post(p, env, VerifyFailed(err), send) == Handled(Caught(err, env), [CreateTransport(ConfigOf(env)), Verify])
  {
  }

  /** After a successful verify exactly one message is sent, whatever the
      send outcome, and it carries the submission. */
  lemma OneSendAfterVerify(p: Payload, env: Env, send: SendOutcome)
    requires Acceptable(p)
    ensures var h := Post(p, env, Verified, send);
      && |h.calls| == 3
      && h.calls[2] == SendMail(ComposeMail(p.body.name.value, p.body.email.value, p.body.message.value, env))
  {
  }

  /** When the provider accepts the message, the response is 200 and carries
      the provider's message id unchanged. */
  lemma DeliveredResponse(p: Payload, env: Env, id: string)
    requires Acceptable(p)
    ensures Post(p, env, Verified, Sent(id)).response == Response(200, SentMessage, None, Some(id), None, None)
  {
  }

  /** When the provider rejects the message, the error is classified. */
  lemma SendFailureClassified(p: Payload, env: Env, err: Failure)
    requires Acceptable(p)
    ensures Post(p, env, Verified, SendFailed(err)).response == Caught(err, env)
  {
  }

  /** The message sent for a submission replies to the submitter, is
      addressed to SMTP_FROM and is titled with the submitter's name. */
  lemma SentMailAddressing(p: Payload, env: Env, send: SendOutcome)
    requires Acceptable(p)
    ensures var calls := Post(p, env, Verified, send).calls;
      && |calls| == 3 && calls[2].SendMail?
      && var m := calls[2].mail;
      && m.replyTo == p.body.email.value
      && m.to == env.smtpFrom
      && m.subject == SubjectPrefix + p.body.name.value
      && Includes(m.text, "Name: " + p.body.name.value)
  {
    OneSendAfterVerify(p, env, send);
    MailCarriesSubmission(p.body.name.value, p.body.email.value, p.body.message.value, env);
  }

  /** A timed-out send without SMTP reply 535 is answered with the network
      hint, and the code is echoed. */
  lemma TimeoutExample(err: Failure, env: Env)
    requires err.code == Some("ETIMEDOUT") && err.responseCode != Some(ErrorClassifier.AuthFailedReply)
    ensures var r := Caught(err, env);
      && r.status == 500
      && r.message == ErrorClassifier.TimeoutMessage
      && r.hint == Some(ErrorClassifier.TimeoutHint)
      && r.code == Some("ETIMEDOUT")
  {
  }
}
