/** The catch block of the contact route: how a mail-library error (or any
    other error thrown inside the handler) becomes a message and a hint. */
module ErrorClassifier {
  import opened Js
  import opened Mailer

  /** The user-facing text chosen for an error. */
  datatype Diagnosis = Diagnosis(message: string, hint: string)

  /** The error classes the route recognises, in its order of priority. */
  datatype Kind = Auth | Connection | Timeout | Socket | Unrecognized

  const FallbackMessage := "Failed to send email"
  const AuthMessage := "Authentication failed"
  const AuthHint := "Check if you need an app-specific password for Zoho"
  const ConnectionMessage := "Connection failed"
  const ConnectionHint := "Check SMTP settings and firewall"
  const TimeoutMessage := "Connection timed out"
  const TimeoutHint := "Check network connectivity and firewall settings"
  const SocketMessage := "Socket error"
  const SocketHint := "Possible TLS/SSL configuration issue"

  /** SMTP reply code 535: authentication credentials invalid. */
  const AuthFailedReply := 535

  /** The class of an error: an authentication failure is recognised by its
      code or by the SMTP reply 535, and wins over every other code. */
  function KindOf(err: Failure): Kind {
    if err.code == Some("EAUTH") || err.responseCode == Some(AuthFailedReply) then Auth
    else if err.code == Some("ECONNECTION") then Connection
    else if err.code == Some("ETIMEDOUT") then Timeout
    else if err.code == Some("ESOCKET") then Socket
    else Unrecognized
  }

  /** The fixed message and hint of each recognised class. */
  function Advice(k: Kind): Diagnosis
    requires k != Unrecognized
  {
    match k
    case Auth => Diagnosis(AuthMessage, AuthHint)
    case Connection => Diagnosis(ConnectionMessage, ConnectionHint)
    case Timeout => Diagnosis(TimeoutMessage, TimeoutHint)
    case Socket => Diagnosis(SocketMessage, SocketHint)
  }

  /** The message and hint the catch block chooses. A recognised class gets
      its fixed advice whatever the error's own message; otherwise a
      non-empty message of the error is passed through with no hint, and
      an error without one gets the generic fallback. */
  function Classify(err: Failure): (d: Diagnosis)
    ensures KindOf(err) != Unrecognized ==> d == Advice(KindOf(err))
    ensures KindOf(err) == Unrecognized && Truthy(err.message) ==> d == Diagnosis(err.message.value, "")
    ensures KindOf(err) == Unrecognized && !Truthy(err.message) ==> d == Diagnosis(FallbackMessage, "")
  {
    if err.code == Some("EAUTH") || err.responseCode == Some(AuthFailedReply) then
      Diagnosis(AuthMessage, AuthHint)
    else if err.code == Some("ECONNECTION") then
      Diagnosis(ConnectionMessage, ConnectionHint)
    else if err.code == Some("ETIMEDOUT") then
      Diagnosis(TimeoutMessage, TimeoutHint)
    else if err.code == Some("ESOCKET") then
      Diagnosis(SocketMessage, SocketHint)
    else if Truthy(err.message) then
      Diagnosis(err.message.value, "")
    else
      Diagnosis(FallbackMessage, "")
  }

  /** A hint is given exactly when the error's class is recognised. */
  lemma HintIffRecognized(err: Failure)
    ensures Classify(err).hint != "" <==> KindOf(err) != Unrecognized
  {
  }

  /** Each recognised class has its own message and its own hint. */
  lemma RecognizedClassesDistinct(e1: Failure, e2: Failure)
    requires KindOf(e1) != Unrecognized && KindOf(e2) != Unrecognized
    requires KindOf(e1) != KindOf(e2)
    ensures Classify(e1).message != Classify(e2).message
    ensures Classify(e1).hint != Classify(e2).hint
  {
  }

  /** For a recognised class the error's own message plays no part. */
  lemma RecognizedIgnoresMessage(e1: Failure, e2: Failure)
    requires e1.code == e2.code && e1.responseCode == e2.responseCode
    requires KindOf(e1) != Unrecognized
    ensures Classify(e1) == Classify(e2)
  {
  }

  /** The SMTP reply 535 counts as an authentication failure even when the
      error carries another recognised code. */
  lemma ReplyCode535WinsOverCode(err: Failure)
    requires err.responseCode == Some(535)
    ensures Classify(err) == Diagnosis(AuthMessage, AuthHint)
  {
  }
}
