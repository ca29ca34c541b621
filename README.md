# magsli core in Dafny

magsli receives MailGun delivery-event webhooks, checks that each one really
comes from MailGun, turns the event into a Slack message and posts that
message to a Slack webhook. This project models the translation path and
proves what it does:

- `Hex` — Base16 decoding (section 8 of RFC 4648) as Go's `encoding/hex`
  does it, with its encoder and both round trips.
- `Mailgun` — the event record `Data`, its error classification, the
  webhook signature check `VerifyMessage` (HMAC-SHA-256 kept abstract), the
  positional subject lookup in `message-headers`, and `NewMailGunData`, which
  fills the record from the form fields.
- `Slack` — the message accumulator: class `Message` whose `attachments`
  field is the in-place slice of the Go code; fields are added to
  attachments found or created by fallback name, and an error add escalates
  the color and icon. Value-level functions (`WithField`, `AfterAddData`,
  `AfterAddError`) state each method's effect, and lemmas prove that
  fallbacks stay unique, no attachment is ever empty, and nothing else
  changes.
- `Handler` — `NewSlackMessageFromMailGunData` is the straight-line series
  of adds, proved equal to a declarative description `Notification(d)` of
  the message it must build; `Handle` is the early-exit gating around
  verify, decode, build and send.

Modelling choices:

- HMAC-SHA-256 is the parameter `hmac: Mac`, a function from key and message
  to a 32-byte `Digest`. Go strings are byte strings, and writing `timestamp`
  and then `token` into the MAC hashes their concatenation, so the message
  is `timestamp + token`.
- `json.Unmarshal` of the `message-headers` value is the parameter
  `unmarshal`. It gives the top-level array it decoded, or an empty sequence
  when the value is not a JSON array. A decoded value is a string, an array
  or anything else (`Json`).
- A Go panic is the outcome `Panicked` of `Run`. This covers the unchecked
  index and type assertions of `getSubjectFromHeaders`.
- A request is its parsed form as a map (first value per key; a missing
  key reads as "") plus the error the first `ParseForm` on it reports.
  `ParseForm` does its work once and reports nothing on later calls. In the
  handler the signature check reads the form first and drops that error, so
  `Handle` decodes the request with no parse error: a form that failed to
  parse only loses the pairs Go could not read.
- A pointer into `m.Attachments` is an index into the `attachments` field.
- The subject lookup panics when there are fewer than four headers or the
  fourth header is not a pair of strings (mailgun/mailgun.go:113, 115, 119);
  it does not fall back to the placeholder in those cases, and neither does
  the model.

## Model

| member | source | states |
|---|---|---|
| Hex.Decode | mailgun/mailgun.go:49-53 | decoding succeeds iff the signature has even length and only hex digits; the result has half the length; an invalid-byte error names a non-digit of the input; an odd-length error only happens when all characters are digits |
| Hex.DecodeReportsFirstNonDigit | mailgun/mailgun.go:49-53 | the character an invalid-byte error reports sits at a position before which every character is a hex digit: it is the first non-digit of the signature |
| Hex.DecodeEncode | mailgun/mailgun.go:49 | decoding the lower-case hex form of any bytes gives those bytes back |
| Hex.EncodeDecode | mailgun/mailgun.go:49 | every lower-case hex string of even length is the hex form of what it decodes to |
| Hex.EncodeInjective | mailgun/mailgun.go:49-59 | distinct byte strings have distinct hex forms |
| Mailgun.IsErrorEvent | mailgun/mailgun.go:32-37 | true iff the event type is "bounced", "dropped", "failed" or "rejected"; false for "" and every other string |
| Mailgun.FormValue | mailgun/mailgun.go:75-82 | a form key reads as its value, a missing key as "" |
| Mailgun.VerifyMessage | mailgun/mailgun.go:41-60 | an error exactly when the signature is not valid hex, and then that decode error; valid iff the decoded signature equals HMAC(apiKey, timestamp + token), so a length mismatch or any other difference gives false with no error |
| Mailgun.AcceptsGenuineSignature | mailgun/mailgun.go:42-59 | the hex form of the expected MAC is accepted with no error |
| Mailgun.RejectsOtherSignature | mailgun/mailgun.go:55-59 | the hex form of any other byte string, including a one-byte change of the MAC, is refused with no error |
| Mailgun.EmptyFormRefused | mailgun/mailgun.go:44-57 | a request whose form holds no fields has the signature "", which decodes to no bytes, so it is refused with no error |
| Mailgun.RejectsWrongLength | mailgun/mailgun.go:55-57 | well-formed hex whose length differs from the MAC's is refused with no error |
| Mailgun.GetSubjectFromHeaders | mailgun/mailgun.go:99-120 | returns normally iff header 3 exists, is an array whose first element is a string and, when that string is "Subject", has a string second element; then the result is that second string, or "<could not get subject>" for any other name; every other input panics |
| Mailgun.SubjectIsFourthHeader | mailgun/mailgun.go:113-119 | on a MailGun header list, fewer than four headers panic; otherwise the result is the fourth header's value if it is named "Subject", else the placeholder |
| Mailgun.FirstHeader | mailgun/mailgun.go:100-107 | reference definition of the header the lookup is meant to find: the value of the first header with a given name, or none when no header has that name |
| Mailgun.SubjectAgreesWithScan | mailgun/mailgun.go:107-119 | when the fourth header is the first "Subject" header, the positional lookup returns the same value as the reference definition |
| Mailgun.SubjectBeforeFourthIsMissed | mailgun/mailgun.go:107-119 | when "Subject" is among the first three headers and the fourth is named otherwise, the positional lookup returns the placeholder while the reference definition finds the subject |
| Mailgun.NewMailGunData | mailgun/mailgun.go:63-97 | a form parse error gives the zero record and that error; otherwise the decode panics iff the subject lookup panics, and else event, domain, recipient and message id are the form values of "event", "domain", "recipient" and "Message-Id", the subject comes from the headers, "bounced" takes SMTP code and error from "code" and "error", "dropped" takes reason, ESP code and description from "reason", "code" and "description", and every other type-specific field stays "" |
| Mailgun.ZeroOnlyWhenEmpty | mailgun/mailgun.go:63-97 | a decode gives the zero record iff the form failed to parse or carried empty event, domain, recipient and message id and an empty subject |
| Slack.IndexOf | slack/slack.go:83-91 | the position of the first attachment with the fallback, or -1 iff there is none |
| Slack.FoundOrCreated | slack/slack.go:101-112 | on a hit the attachments are unchanged; on a miss exactly one attachment with that fallback, no color and no fields is appended; either way the name is then found, at its old place or at the end |
| Slack.WithField | slack/slack.go:70-81 | the named attachment keeps its place (or is new at the end) and holds its old fields plus the new field last; its color is kept; every other attachment is unchanged |
| Slack.WithFieldMiss | slack/slack.go:101-109 | a field for a missing attachment creates it at the end with just that field |
| Slack.WithFieldHit | slack/slack.go:75-111 | a field for an existing attachment is appended to its fields in place |
| Slack.WithFieldKeepsWellFormed | slack/slack.go:70-112 | adding a field keeps fallback names unique and every attachment non-empty |
| Slack.AddDataKeepsLook | slack/slack.go:53-55 | AddData never changes username, text, icon, any fallback or any color, and keeps the attachments' order |
| Slack.AddErrorEscalates | slack/slack.go:58-68 | with an empty value AddError changes nothing; otherwise the field is appended to "Errors", which is colored "danger", and the icon becomes ":rotating_light:" |
| Slack.AddsKeepWellFormed | slack/slack.go:53-81 | AddData and AddError keep fallback names unique and every attachment non-empty |
| Slack.SecondAddReusesAttachment | slack/slack.go:93-112 | two adds to the same new attachment create it once, at the end, with both fields in call order |
| Slack.Message.constructor | slack/slack.go:44-50 | username "magsli", icon ":moyai:", the given text and no attachments |
| Slack.Message.AddData | slack/slack.go:53-55 | the new message is the old one after a "Data" add, and well-formedness is kept |
| Slack.Message.AddError | slack/slack.go:58-68 | the new message is the old one after an "Errors" add with escalation, and well-formedness is kept |
| Slack.Message.AddDataToAttachment | slack/slack.go:70-81 | an empty value returns the error "no value in data" and leaves the message unchanged; otherwise the field is appended to the attachment found or created, whose position is returned, and nothing else changes |
| Slack.Message.FindAttachment | slack/slack.go:83-91 | the loop returns the first index whose fallback matches, or -1 iff none matches |
| Slack.Message.NewAttachment | slack/slack.go:93-99 | appends one empty attachment and returns its position; nothing else changes |
| Slack.Message.FindOrCreateAttachment | slack/slack.go:101-112 | the attachments become FoundOrCreated of the old ones and the returned position holds the named attachment; nothing else changes |
| Handler.AddDataStep | handler.go:43-48 | on a message with "Data" and "Errors" in canonical form, AddData extends "Data" by the field when its value is non-empty and keeps the form |
| Handler.AddErrorStep | handler.go:40-58 | on such a message, AddError extends the "danger" "Errors" attachment and raises the alert icon when the value is non-empty, and keeps the form |
| Handler.DataPhaseShape | handler.go:40-48 | after the event field and Message ID, Recipient and Subject, "Data" holds the present ones among them, "Errors" holds the event exactly for an error event, and "Errors" comes first exactly then |
| Handler.ErrorPhaseShape | handler.go:50-58 | "bounced" then offers SMTP Code and SMTP Error, "dropped" offers Reason, ESP Code and Description, to "Errors", keeping the present ones in order |
| Handler.BuildShape | handler.go:35-61 | the two phases together reach exactly the shape `Notification` describes |
| Handler.NewSlackMessageFromMailGunData | handler.go:35-61 | the message built equals `Notification(d)` |
| Handler.NotificationHeader | handler.go:36-38 | the sender is "magsli" and the text is "MailGun message for domain: " followed by the domain |
| Handler.NotificationWellFormed | handler.go:40-58 | at most two attachments, each named "Data" or "Errors", names unique, none empty |
| Handler.NotificationContents | handler.go:40-58 | "Data" holds exactly the present data fields and "Errors" exactly the present error fields, in call order; the icon is ":rotating_light:" iff "Errors" exists and ":moyai:" otherwise; "Errors" is colored "danger"; "Data" has no color |
| Handler.EventFieldPlacement | handler.go:40-45 | a non-empty event type opens "Errors" for an error event, and then is not in "Data"; otherwise it opens "Data" and there is no "Errors"; an empty event type puts no "Event" field anywhere |
| Handler.BounceExample | handler.go:40-53 | a bounce with code "550", no SMTP error and a recipient gives "Errors" (danger) with Event and SMTP Code, "Data" with Recipient, and the alert icon |
| Handler.Handle | handler.go:11-33 | an invalid signature is ignored before decoding; decoding then sees no parse error, since the signature check already parsed the form; a panicking decode stops; a zero record stops, and never with a parse error; otherwise exactly `Notification(data)` is sent, and a sent message always had a signature equal to the MAC |

## Left out

- main.go: flag and environment parsing, the TLS choice, listening, request logging and version output are process start-up and I/O.
- `Message.Send` (slack/slack.go:115-133): JSON marshalling and the HTTP POST with its one-second timeout. `Handle` ends with the message it hands to `Send`, and a send failure changes nothing else.
- HMAC-SHA-256 itself and the constant-time comparison of `hmac.Equal`: the MAC is an abstract parameter and the comparison is sequence equality, since timing cannot be expressed.
- `json.Unmarshal` of `message-headers`, whose error the code ignores: the already-decoded array is the input.
- `ParseForm`/`FormValue` mechanics (query against body precedence, repeated keys, multipart forms): the form is the map of pairs Go could parse, with the error of the first parse, and `VerifyMessage` and the decoding read the same map.
- Hex.Decode: an invalid-byte error names the offending character, where Go names the first byte of that character's UTF-8 encoding; the two agree for ASCII input.
- Logging with `fmt.Printf` in handler.go, and the concurrent serving of requests, which share no state.
- Handler.Handle: a panic during decoding is reported as the outcome `Crashed`; what the HTTP server does after it recovers the panic is not modelled.
