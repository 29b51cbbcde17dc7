/** What the contact route hands to, and gets back from, the mail library:
    the environment it reads, the transport configuration it derives, the
    error objects the library rejects with, the outcomes of `verify` and
    `sendMail`, the message it sends and the calls it makes. */
module Mailer {
  import opened Js
  import JsNumber

  /** The environment variables the route reads; `None` is an unset variable. */
  datatype Env = Env(
    smtpHost: Option<string>,
    smtpPort: Option<string>,
    smtpUser: Option<string>,
    smtpPass: Option<string>,
    smtpFrom: Option<string>,
    nodeEnv: Option<string>)

  const DefaultHost := "smtp.zoho.com.au"
  const DefaultPort := "587"
  /** The port on which the connection is TLS from the start. */
  const ImplicitTlsPort := 465

  /** The options of `createTransport` that depend on the environment.
      `port` is `None` when `parseInt` gives NaN. */
  datatype TransportConfig = TransportConfig(
    host: string,
    port: Option<int>,
    secure: bool,
    user: Option<string>,
    pass: Option<string>)

  predicate IsDevelopment(env: Env) {
    env.nodeEnv == Some("development")
  }

  /** The transport configuration the route builds from the environment. */
  function ConfigOf(env: Env): (c: TransportConfig)
    ensures Truthy(env.smtpHost) ==> c.host == env.smtpHost.value
    ensures !Truthy(env.smtpHost) ==> c.host == DefaultHost
    ensures c.secure <==> c.port == Some(ImplicitTlsPort)
    ensures c.user == env.smtpUser && c.pass == env.smtpPass
  {
    var port := JsNumber.ParseInt(Or(env.smtpPort, DefaultPort));
    TransportConfig(
      Or(env.smtpHost, DefaultHost),
      port,
      port == Some(ImplicitTlsPort),
      env.smtpUser,
      env.smtpPass)
  }

  /** An unset or empty SMTP_PORT gives port 587 without implicit TLS. */
  lemma DefaultPortIs587(env: Env)
    requires !Truthy(env.smtpPort)
    ensures ConfigOf(env).port == Some(587)
    ensures !ConfigOf(env).secure
  {
    assert JsNumber.ShowNat(5) == "5";
    assert JsNumber.ShowNat(58) == "58";
    assert JsNumber.ShowNat(587) + "" == DefaultPort;
    JsNumber.ParseIntShowNat(587, "");
  }

  /** SMTP_PORT set to the decimal numeral of `n` (followed by nothing, or by
      text that cannot continue the numeral) gives port `n`, and the
      connection is TLS from the start exactly when `n` is 465. */
  lemma PortFromNumeral(env: Env, n: nat, rest: string)
    requires env.smtpPort == Some(JsNumber.ShowNat(n) + rest)
    requires rest == [] || !JsNumber.IsDigit(rest[0], 10)
    requires n == 0 ==> rest == [] || (rest[0] != 'x' && rest[0] != 'X')
    ensures ConfigOf(env).port == Some(n)
    ensures ConfigOf(env).secure <==> n == 465
  {
    assert Or(env.smtpPort, DefaultPort) == JsNumber.ShowNat(n) + rest;
    JsNumber.ParseIntShowNat(n, rest);
  }

  /** An SMTP_PORT that does not start like a number (with white space, a
      sign or a decimal digit) gives NaN, which is never 465. */
  lemma NonNumericPort(env: Env, p: string)
    requires env.smtpPort == Some(p)
    requires |p| > 0 && !IsSpace(p[0]) && !JsNumber.HasSign(p) && !JsNumber.IsDigit(p[0], 10)
    ensures ConfigOf(env).port == None
    ensures !ConfigOf(env).secure
  {
    assert Or(env.smtpPort, DefaultPort) == p;
    JsNumber.ParseIntNoDigit(p);
  }

  /** The error object a rejected `verify` or `sendMail` (or a failed body
      parse) throws, reduced to the three properties the route reads. */
  datatype Failure = Failure(code: Option<string>, responseCode: Option<int>, message: Option<string>)

  /** The outcome of `transporter.verify()`, decided by the mail server. */
  datatype VerifyOutcome = Verified | VerifyFailed(err: Failure)

  /** The outcome of `transporter.sendMail(...)`: the id the provider
      assigned to the message, or the error it rejected with. */
  datatype SendOutcome = Sent(messageId: string) | SendFailed(err: Failure)

  /** The options passed to `sendMail`. `to` is `None` when SMTP_FROM is unset. */
  datatype Mail = Mail(
    from: string,
    to: Option<string>,
    subject: string,
    text: string,
    html: string,
    replyTo: string)

  /** A call the route makes on the mail library, in the order it makes them. */
  datatype Call = CreateTransport(config: TransportConfig) | Verify | SendMail(mail: Mail)
}
