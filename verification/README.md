# Contact route model

A Dafny model of the contact-form endpoint `/api/contact` of the Carbie
front end (`src/app/api/contact/route.ts`).

`POST` does four things in order:

1. It reads `name`, `email` and `message` from the JSON body.
2. It rejects a missing field, then an email that does not match
   `/^[^\s@]+@[^\s@]+\.[^\s@]+$/`.
3. It builds a nodemailer transport from the `SMTP_*` environment
   variables and verifies the connection.
4. It sends one message and reports the outcome.

Every error thrown along the way reaches the catch block at `route.ts:152`,
which classifies it by its `code`, `responseCode` and `message`. The one
exception is a verify error whose message mentions "Invalid login": the
inner catch at `route.ts:71` answers it directly with a fixed 500. `GET`,
`PUT` and `DELETE` answer 405.

The handler is a pure function. The mail server is an oracle: the handler
is given the outcome `verify` would have (`Verified` or `VerifyFailed(err)`)
and the outcome `sendMail` would have (`Sent(id)` or `SendFailed(err)`).
It returns the JSON response together with the calls it made on the mail
library, in order. This turns the following into postconditions:

- invalid input makes no call;
- a send happens only after a successful verify;
- at most one message is sent.

Modules:

- `Js`: the JavaScript semantics the route relies on. This covers
  `undefined`-or-string values, truthiness, `||`, template interpolation,
  `includes`, `indexOf` and the ECMAScript `\s` class.
- `JsNumber`: `parseInt` as the route calls it. It skips leading white
  space, reads an optional sign, switches to base 16 after `0x`, then
  reads the longest digit run. NaN is `None`.
- `EmailPattern`: the email expression in three forms, with proofs that
  they agree:
  - `RegexMatches`, the expression's language;
  - `Test`, a split at the first `@`, which the handler uses;
  - `WellShaped`, the shape in words.
- `Mailer`: the environment, the transport configuration, the library's
  error objects and outcomes, the outgoing message and the call trace.
- `ErrorClassifier`: the catch block's choice of message and hint.
- `ContactRoute`: the handler, the outgoing message and the properties of
  the whole route.

Where the code and its tests disagree, the model follows the code:

- A verify error that does not mention "Invalid login" is rethrown at
  `route.ts:85`. That rethrow is inside the outer `try`, so the catch
  block classifies it as a 500 response. The test at
  `tests/api/contact/route.test.ts:324-335` expects it to escape `POST`.
- The HTML body interpolates the submitted values verbatim
  (`route.ts:112-120`). The test at `tests/api/contact/route.test.ts:397`
  expects `<` to be escaped.

## Model

| member | source | states |
|---|---|---|
| ContactRoute.Post | src/app/api/contact/route.ts:7-190 | An acceptable submission is handled exactly by the delivery step. Any other submission makes no mail-library call. The status is 400 exactly for a parsed body that fails validation. The status is 200 exactly when the submission is acceptable, verify succeeds and the send succeeds. Every status is 200, 400 or 500. |
| ContactRoute.MissingFieldRejected | src/app/api/contact/route.ts:12-17 | A missing or empty name, email or message gives 400 "All fields are required" with no call. This holds whatever the email, environment or server outcomes, so it runs before the email check. |
| ContactRoute.InvalidEmailRejected | src/app/api/contact/route.ts:20-26 | With all fields present, an email outside the expression's language gives 400 "Invalid email format" with no call. |
| ContactRoute.RejectionIsLocal | src/app/api/contact/route.ts:12-26 | A rejected submission gets the same response and the same empty trace under every environment and every server outcome. |
| ContactRoute.UnparsableBodyClassified | src/app/api/contact/route.ts:9 | A body that `request.json()` cannot parse goes straight to the catch block, with no call. |
| EmailPattern.TestIsRegex | src/app/api/contact/route.ts:20-21 | The first-'@' split check accepts a string iff the regular expression matches it. |
| EmailPattern.TestIsWellShaped | src/app/api/contact/route.ts:20-21 | The check accepts a string iff it has exactly one '@', a non-empty local part without white space, and a domain without white space or '@' that has a '.' with a character on each side. |
| EmailPattern.AcceptsShape | src/app/api/contact/route.ts:20 | Every local@label.label made of non-empty runs of `[^\s@]` is accepted. |
| EmailPattern.RejectsNoAt | src/app/api/contact/route.ts:20 | A string without '@' is rejected. |
| EmailPattern.RejectsTwoAts | src/app/api/contact/route.ts:20 | A string with two '@' is rejected. |
| EmailPattern.RejectsSpace | src/app/api/contact/route.ts:20 | A string with a white-space character anywhere is rejected. |
| EmailPattern.RejectsNoDomain | src/app/api/contact/route.ts:20 | A string ending in '@' is rejected. |
| EmailPattern.ShortestAccepted | tests/api/contact/route.test.ts:628-639 | "a@b.c" is accepted. |
| EmailPattern.UsualAccepted | src/app/api/contact/route.ts:20 | "test@example.com" is accepted. |
| EmailPattern.NoDomainExample | tests/api/contact/route.test.ts:150 | "test@" is rejected. |
| EmailPattern.SpaceExample | tests/api/contact/route.test.ts:178 | "test @example.com" is rejected. |
| EmailPattern.TwoAtsExample | tests/api/contact/route.test.ts:192 | "test@example@domain.com" is rejected. |
| Mailer.ConfigOf | src/app/api/contact/route.ts:38-48 | The host is SMTP_HOST when truthy, otherwise smtp.zoho.com.au. The connection is secure iff the parsed port is 465. User and password are passed through. |
| Mailer.DefaultPortIs587 | src/app/api/contact/route.ts:38-39 | With SMTP_PORT unset or empty, the port is 587 and the connection is not secure. |
| Mailer.PortFromNumeral | src/app/api/contact/route.ts:38-39 | SMTP_PORT holding the numeral of n, possibly followed by non-digits, gives port n. The connection is secure iff n is 465. |
| Mailer.NonNumericPort | src/app/api/contact/route.ts:38-39 | An SMTP_PORT that does not start like a number gives NaN, which is never secure. |
| JsNumber.ParseIntShowNat | src/app/api/contact/route.ts:38 | `parseInt` reads a decimal numeral back, also with trailing non-digits. The exception is "0" followed by x or X. |
| JsNumber.ParseIntOfDecimal | src/app/api/contact/route.ts:38 | On text starting with a decimal digit and not with 0x, `parseInt` reads the longest decimal run. |
| JsNumber.ParseIntNoDigit | src/app/api/contact/route.ts:38 | Text starting with neither white space, a sign nor a digit parses to NaN. |
| ContactRoute.DeliverOpensTransport | src/app/api/contact/route.ts:41-69 | After validation, the first call creates the transport from the environment's configuration. The second call is verify. At most three calls are made. |
| ContactRoute.DeliverSendsOnlyAfterVerify | src/app/api/contact/route.ts:68-130 | A send appears only as the third call, and only when verify succeeded. |
| ContactRoute.CallsInOrder | src/app/api/contact/route.ts:12-143 | For the whole handler: calls happen iff the submission is acceptable. They begin create, verify. There are at most three. A send is only the third call, after a successful verify. |
| ContactRoute.Deliver | src/app/api/contact/route.ts:66-150 | A failed verify makes exactly create and verify. A successful verify adds exactly one send of the composed message. The status is 200 iff verify and send both succeed, otherwise 500. |
| ContactRoute.InvalidLoginStopsBeforeSend | src/app/api/contact/route.ts:75-83 | A verify error mentioning "Invalid login" gives 500 with the fixed Zoho message and hint, and no send. |
| ContactRoute.OtherVerifyFailureClassified | src/app/api/contact/route.ts:85 | Any other verify error gets exactly the catch block's response, and no send. |
| ContactRoute.OneSendAfterVerify | src/app/api/contact/route.ts:130-143 | After a successful verify there are exactly three calls. The third sends the message composed from the submission. |
| ContactRoute.DeliveredResponse | src/app/api/contact/route.ts:145-150 | An accepted send gives 200 "Email sent successfully" with the provider's id unchanged. |
| ContactRoute.SendFailureClassified | src/app/api/contact/route.ts:130-188 | A rejected send gets the catch block's response. |
| ContactRoute.ComposeMail | src/app/api/contact/route.ts:130-143 | The message's from, to, subject and reply-to are built from SMTP_FROM, the name and the email. |
| ContactRoute.MailText | src/app/api/contact/route.ts:134-140 | The text body contains "Name: " + name, "Email: " + email and the message. |
| ContactRoute.MailHtml | src/app/api/contact/route.ts:89-126 | The HTML body contains name, email and message verbatim. |
| ContactRoute.MailCarriesSubmission | src/app/api/contact/route.ts:134-141 | Both bodies of the composed message carry the three submitted values. |
| ContactRoute.SentMailAddressing | src/app/api/contact/route.ts:130-143 | The message sent replies to the submitter, is addressed to SMTP_FROM, is titled "Contact Form: " + name, and its text names the submitter. |
| ContactRoute.Caught | src/app/api/contact/route.ts:160-188 | The catch block answers 500 with the classifier's message and hint and echoes the code. `error` is the error's message in development and absent otherwise. |
| ErrorClassifier.Classify | src/app/api/contact/route.ts:161-178 | A recognised class gets its fixed advice. Otherwise a truthy message is used with hint "". Otherwise the result is "Failed to send email" with hint "". |
| ErrorClassifier.HintIffRecognized | src/app/api/contact/route.ts:161-178 | The hint is non-empty iff the error's class is recognised. |
| ErrorClassifier.RecognizedClassesDistinct | src/app/api/contact/route.ts:164-175 | Different recognised classes get different messages and different hints. |
| ErrorClassifier.RecognizedIgnoresMessage | src/app/api/contact/route.ts:164-175 | For a recognised class, the error's own message plays no part. |
| ErrorClassifier.ReplyCode535WinsOverCode | src/app/api/contact/route.ts:164-166 | SMTP reply 535 means "Authentication failed" whatever the error's code. |
| ContactRoute.TimeoutExample | src/app/api/contact/route.ts:164-172 | An ETIMEDOUT error without SMTP reply 535 gives 500 "Connection timed out" with the network hint, and the code is echoed. |
| ContactRoute.Route | src/app/api/contact/route.ts:193-212 | GET, PUT and DELETE answer 405 "Method not allowed" with no call. A 405 comes from no other method. |

## Left out

- nodemailer internals are not modelled; only the outcomes of `verify` and `sendMail` are. This covers the SMTP dialogue, the TLS options, the 30-second timeouts and the `debug`/`logger` flags (`route.ts:49-63`). They belong to a foreign library reached over the network.
- `console.log` and `console.error` output (`route.ts:29-34`, `67-72`, `129`, `145`, `153-158`) is left out. It is logging only.
- The HTML body's styling and layout are left out. The model keeps only the markup around the three interpolated values, in order.
- `request.json()` is reduced to its outcome: the three fields, or the error it throws. JSON field values that are not strings (numbers, objects) are not modelled; a field is a string or absent.
- Strings are modelled as sequences of Unicode scalar values. JavaScript strings are sequences of UTF-16 code units, and `request.json()` can produce a lone surrogate from an escape such as `"\ud800"`. Inputs holding lone surrogates are therefore not represented. The outcomes on well-formed strings are unaffected.
- `parseInt` works on unbounded integers. A numeral too large for a double would be rounded by JavaScript; the model keeps its exact value.
- The response is reduced to its status and JSON fields. Headers and the `NextResponse` object are not modelled.
- `runtime = 'nodejs'` (`route.ts:5`) is a framework setting with no behaviour to model.
- The page and layout components, the ContactForm client component, the test and launch scripts, and the configuration files are not part of this model. They hold rendering, client state, process spawning and configuration, not the route's logic.
