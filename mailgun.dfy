/**
 * The inbound side: the MailGun event record, its error classification, the
 * webhook signature check and the decoding of the form fields of a webhook
 * POST (mailgun/mailgun.go).
 */
module Mailgun {
  import opened Wrappers
  import Hex

  /** The fields of a MailGun event used for the Slack message (`Data`). */
  datatype Data = Data(
    eventType: string,
    domain: string,
    recipient: string,
    messageId: string,
    subject: string,
    // bounced
    smtpCode: string,
    smtpError: string,
    // dropped
    reason: string,
    espCode: string,
    description: string)

  /** The zero value `Data{}`, which callers read as "could not decode". */
  const Zero := Data("", "", "", "", "", "", "", "", "", "")

  const ErrorEventTypes: set<string> := {"bounced", "dropped", "failed", "rejected"}

  /** Whether the event type counts as an error (`IsErrorEvent`). */
  function IsErrorEvent(d: Data): (r: bool)
    ensures r <==> d.eventType in ErrorEventTypes
    ensures d.eventType == "" ==> !r
  {
    d.eventType == "bounced" ||
    d.eventType == "dropped" ||
    d.eventType == "failed" ||
    d.eventType == "rejected"
  }

  /**
   * An inbound HTTP request, reduced to its parsed form fields (first value of
   * each key) and the error the first `ParseForm` on it reports, if any. Later
   * calls to `ParseForm` on the same request report nothing.
   */
  datatype Request = Request(form: map<string, string>, parseError: Option<string>)

  /** `FormValue`: a key that is absent reads as the empty string. */
  function FormValue(req: Request, key: string): (v: string)
    ensures key in req.form ==> v == req.form[key]
    ensures key !in req.form ==> v == ""
  {
    if key in req.form then req.form[key] else ""
  }

  // ---------------------------------------------------------------- signature

  /** Size in bytes of an HMAC-SHA-256 tag. */
  const MacSize := 32

  type Digest = s: seq<Hex.byte> | |s| == MacSize
    witness seq(MacSize, _ => 0 as Hex.byte)

  /**
   * HMAC-SHA-256 (RFC 2104 over FIPS 180-4 SHA-256) is not modelled: it is the
   * parameter `hmac(key, message)`. Go strings are byte strings and writing
   * `timestamp` then `token` into the MAC hashes their concatenation.
   */
  type Mac = (string, string) -> Digest

  /** What `VerifyMessage` returns: the verdict and the decode error, if any. */
  datatype Verdict = Verdict(valid: bool, err: Option<Hex.DecodeError>)

  function ExpectedMac(apiKey: string, req: Request, hmac: Mac): Digest {
    hmac(apiKey, FormValue(req, "timestamp") + FormValue(req, "token"))
  }

  /** `VerifyMessage`: hex-decode `signature` and compare it with the MAC. */
  function VerifyMessage(apiKey: string, req: Request, hmac: Mac): (r: Verdict)
    ensures r.err.Some? <==> Hex.Decode(FormValue(req, "signature")).Failure?
    ensures r.err.Some? ==> r.err.value == Hex.Decode(FormValue(req, "signature")).error
    ensures r.valid <==> Hex.Decode(FormValue(req, "signature")) == Success(ExpectedMac(apiKey, req, hmac))
  {
    var expectedMac := ExpectedMac(apiKey, req, hmac);
    match Hex.Decode(FormValue(req, "signature"))
    case Failure(e) => Verdict(false, Some(e))
    case Success(signature) =>
      if |expectedMac| != |signature| then Verdict(false, None)
      else Verdict(signature == expectedMac, None)
  }

  /** A signature that is the hex form of the MAC is accepted. */
  lemma AcceptsGenuineSignature(apiKey: string, req: Request, hmac: Mac)
    requires FormValue(req, "signature") == Hex.Encode(ExpectedMac(apiKey, req, hmac))
    ensures VerifyMessage(apiKey, req, hmac) == Verdict(true, None)
  {
    Hex.DecodeEncode(ExpectedMac(apiKey, req, hmac));
  }

  /**
   * Any other well-formed signature, of the MAC's length or not, is refused
   * without an error; in particular one that differs from the MAC in a
   * single byte.
   */
  lemma RejectsOtherSignature(apiKey: string, req: Request, hmac: Mac, forged: seq<Hex.byte>)
    requires forged != ExpectedMac(apiKey, req, hmac)
    requires FormValue(req, "signature") == Hex.Encode(forged)
    ensures VerifyMessage(apiKey, req, hmac) == Verdict(false, None)
  {
    Hex.DecodeEncode(forged);
  }

  /**
   * A request whose form carries nothing (for instance one whose body could
   * not be parsed at all) is refused: "" decodes to no bytes, not a MAC.
   */
  lemma EmptyFormRefused(apiKey: string, req: Request, hmac: Mac)
    requires req.form == map[]
    ensures VerifyMessage(apiKey, req, hmac) == Verdict(false, None)
  {
    assert FormValue(req, "signature") == "";
    assert Hex.Decode("") == Success([]);
  }

  /** A signature of the wrong length is refused without an error. */
  lemma RejectsWrongLength(apiKey: string, req: Request, hmac: Mac)
    requires Hex.Decode(FormValue(req, "signature")).Success?
    requires |Hex.Decode(FormValue(req, "signature")).value| != MacSize
    ensures VerifyMessage(apiKey, req, hmac) == Verdict(false, None)
  {
  }

  // ------------------------------------------------------------ message-headers

  /**
   * A value decoded by `json.Unmarshal` into `interface{}`: a string, an array,
   * or anything else (null, a boolean, a number, an object), which this code
   * never looks into.
   */
  datatype Json = JString(s: string) | JArray(elems: seq<Json>) | JOther

  /** The outcome of Go code that may panic. */
  datatype Run<+T> = Returned(value: T) | Panicked(reason: string)

  const CouldNotGetSubject := "<could not get subject>"

  /**
   * `getSubjectFromHeaders` over the top-level array already decoded from the
   * `message-headers` value (empty when the value is not a JSON array). It
   * trusts the fourth header to be the subject; every unchecked index and
   * type assertion in the source is a panic here.
   */
  function GetSubjectFromHeaders(headers: seq<Json>): (r: Run<string>)
    ensures r.Returned? <==>
      |headers| > 3 && headers[3].JArray? && |headers[3].elems| > 0 &&
      headers[3].elems[0].JString? &&
      (headers[3].elems[0].s == "Subject" ==>
        |headers[3].elems| > 1 && headers[3].elems[1].JString?)
    ensures r.Returned? && headers[3].elems[0].s == "Subject" ==>
      r.value == headers[3].elems[1].s
    ensures r.Returned? && headers[3].elems[0].s != "Subject" ==>
      r.value == CouldNotGetSubject
  {
    if |headers| <= 3 then Panicked("index out of range [3]")
    else if !headers[3].JArray? then Panicked("interface conversion: headers[3] is not []interface{}")
    else
      var subjectArray := headers[3].elems;
      if |subjectArray| == 0 then Panicked("index out of range [0]")
      else if !subjectArray[0].JString? then Panicked("interface conversion: subjectArray[0] is not string")
      else if subjectArray[0].s != "Subject" then Returned(CouldNotGetSubject)
      else if |subjectArray| == 1 then Panicked("index out of range [1]")
      else if !subjectArray[1].JString? then Panicked("interface conversion: subjectArray[1] is not string")
      else Returned(subjectArray[1].s)
  }

  /** MailGun's encoding of a header list: one `[name, value]` array per header. */
  function EncodeHeaders(hs: seq<(string, string)>): (j: seq<Json>)
    ensures |j| == |hs|
    ensures forall i :: 0 <= i < |hs| ==> j[i] == JArray([JString(hs[i].0), JString(hs[i].1)])
  {
    seq(|hs|, i requires 0 <= i < |hs| => JArray([JString(hs[i].0), JString(hs[i].1)]))
  }

  /**
   * The value of the first header with the given name, scanning in order: a
   * reference definition of the subject the positional lookup is meant to find.
   */
  function FirstHeader(hs: seq<(string, string)>, name: string): (v: Option<string>)
    ensures v.None? <==> forall i :: 0 <= i < |hs| ==> hs[i].0 != name
    ensures v.Some? ==>
      (exists i :: 0 <= i < |hs| && hs[i] == (name, v.value) &&
        forall j :: 0 <= j < i ==> hs[j].0 != name)
    decreases |hs|
  {
    if |hs| == 0 then None
    else if hs[0].0 == name then Some(hs[0].1)
    else
      var v := FirstHeader(hs[1..], name);
      assert v.Some? ==>
        (exists i :: 0 <= i < |hs| && hs[i] == (name, v.value) &&
          forall j :: 0 <= j < i ==> hs[j].0 != name) by {
        if v.Some? {
          var i :| 0 <= i < |hs| - 1 && hs[1..][i] == (name, v.value) &&
            forall j :: 0 <= j < i ==> hs[1..][j].0 != name;
          assert hs[i + 1] == (name, v.value);
        }
      }
      v
  }

  /**
   * On a well-formed header list the positional lookup panics when there are
   * fewer than four headers, and otherwise returns the fourth header's value
   * when it is named "Subject" and the placeholder when it is not.
   */
  lemma SubjectIsFourthHeader(hs: seq<(string, string)>)
    ensures |hs| <= 3 ==> GetSubjectFromHeaders(EncodeHeaders(hs)).Panicked?
    ensures |hs| > 3 ==>
      GetSubjectFromHeaders(EncodeHeaders(hs)) ==
        Returned(if hs[3].0 == "Subject" then hs[3].1 else CouldNotGetSubject)
  {
  }

  /**
   * When the fourth header is the first one named "Subject", the positional
   * lookup finds the same value as a scan for the first "Subject" header.
   */
  lemma {:induction false} SubjectAgreesWithScan(hs: seq<(string, string)>)
    requires |hs| > 3 && hs[3].0 == "Subject"
    requires forall j :: 0 <= j < 3 ==> hs[j].0 != "Subject"
    ensures FirstHeader(hs, "Subject") == Some(hs[3].1)
    ensures GetSubjectFromHeaders(EncodeHeaders(hs)) == Returned(FirstHeader(hs, "Subject").value)
  {
    assert hs[1..][2..][0] == hs[3];
    assert FirstHeader(hs[1..][1..][1..], "Subject") == Some(hs[3].1);
  }

  /**
   * When "Subject" is among the first three headers (and the fourth is not
   * another "Subject"), the positional lookup misses it and returns the
   * placeholder, although a scan finds the subject.
   */
  lemma {:induction false} SubjectBeforeFourthIsMissed(hs: seq<(string, string)>, j: nat)
    requires |hs| > 3 && j < 3 && hs[3].0 != "Subject"
    requires hs[j].0 == "Subject" && forall k :: 0 <= k < j ==> hs[k].0 != "Subject"
    ensures GetSubjectFromHeaders(EncodeHeaders(hs)) == Returned(CouldNotGetSubject)
    ensures FirstHeader(hs, "Subject") == Some(hs[j].1)
  {
  }

  // ------------------------------------------------------------------ decoding

  /** What `NewMailGunData` returns: the record and the error, if any. */
  datatype Decoded = Decoded(data: Data, err: Option<string>)

  /** `json.Unmarshal` of `message-headers` into `[]interface{}` is a parameter. */
  type Unmarshal = string -> seq<Json>

  /**
   * `NewMailGunData`: the base fields from the form, the subject from the
   * headers, and the type-specific fields of "bounced" and "dropped" events.
   */
  function NewMailGunData(req: Request, unmarshal: Unmarshal): (r: Run<Decoded>)
    ensures req.parseError.Some? ==> r == Returned(Decoded(Zero, req.parseError))
    ensures req.parseError.None? ==>
      (r.Panicked? <==> GetSubjectFromHeaders(unmarshal(FormValue(req, "message-headers"))).Panicked?)
    ensures req.parseError.None? && r.Returned? ==>
      var d := r.value.data;
      r.value.err.None? &&
      d.eventType == FormValue(req, "event") &&
      d.domain == FormValue(req, "domain") &&
      d.recipient == FormValue(req, "recipient") &&
      d.messageId == FormValue(req, "Message-Id") &&
      Returned(d.subject) == GetSubjectFromHeaders(unmarshal(FormValue(req, "message-headers"))) &&
      d.smtpCode == (if d.eventType == "bounced" then FormValue(req, "code") else "") &&
      d.smtpError == (if d.eventType == "bounced" then FormValue(req, "error") else "") &&
      d.reason == (if d.eventType == "dropped" then FormValue(req, "reason") else "") &&
      d.espCode == (if d.eventType == "dropped" then FormValue(req, "code") else "") &&
      d.description == (if d.eventType == "dropped" then FormValue(req, "description") else "")
  {
    if req.parseError.Some? then Returned(Decoded(Zero, req.parseError))
    else
      var event := FormValue(req, "event");
      match GetSubjectFromHeaders(unmarshal(FormValue(req, "message-headers")))
      case Panicked(why) => Panicked(why)
      case Returned(subject) =>
        var data := Data(event, FormValue(req, "domain"), FormValue(req, "recipient"),
                         FormValue(req, "Message-Id"), subject, "", "", "", "", "");
        var data :=
          if event == "bounced" then
            data.(smtpCode := FormValue(req, "code"), smtpError := FormValue(req, "error"))
          else if event == "dropped" then
            data.(reason := FormValue(req, "reason"), espCode := FormValue(req, "code"),
                  description := FormValue(req, "description"))
          else data;
        Returned(Decoded(data, None))
  }

  /**
   * A successful decode yields the zero record only when the form carried no
   * event, domain, recipient or message id and the subject decoded to "".
   * On a fresh request the zero check downstream thus catches every parse
   * failure; inside the handler the form is already parsed, so it catches
   * only an empty form.
   */
  lemma ZeroOnlyWhenEmpty(req: Request, unmarshal: Unmarshal)
    requires NewMailGunData(req, unmarshal).Returned?
    ensures NewMailGunData(req, unmarshal).value.data == Zero <==>
      req.parseError.Some? ||
      (FormValue(req, "event") == "" && FormValue(req, "domain") == "" &&
       FormValue(req, "recipient") == "" && FormValue(req, "Message-Id") == "" &&
       GetSubjectFromHeaders(unmarshal(FormValue(req, "message-headers"))) == Returned(""))
  {
  }
}
