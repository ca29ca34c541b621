/**
 * The request handler (handler.go): the Slack message built from a MailGun
 * event, and the early exits around verification and decoding.
 */
module Handler {
  import opened Wrappers
  import opened Mailgun
  import opened Slack
  import Hex

  const SummaryPrefix := "MailGun message for domain: "

  /** The fields whose value is non-empty, in order: the ones an add keeps. */
  function Present(fs: seq<Field>): (r: seq<Field>)
    ensures |r| <= |fs|
    ensures forall i :: 0 <= i < |r| ==> r[i].value != ""
    decreases |fs|
  {
    if fs == [] then []
    else (if fs[0].value == "" then [] else [fs[0]]) + Present(fs[1..])
  }

  lemma {:induction false} PresentAppend(a: seq<Field>, b: seq<Field>)
    ensures Present(a + b) == Present(a) + Present(b)
    decreases |a|
  {
    if a != [] {
      assert (a + b)[1..] == a[1..] + b;
      PresentAppend(a[1..], b);
    } else {
      assert a + b == b;
    }
  }

  function EventField(d: Data): Field {
    Field("Event", d.eventType, true)
  }

  /** The data fields offered after the event field. */
  function LaterDataFields(d: Data): seq<Field> {
    [Field("Message ID", d.messageId, false),
     Field("Recipient", d.recipient, true),
     Field("Subject", d.subject, true)]
  }

  /** The fields that belong to "Data", in the order they are offered. */
  function DataFields(d: Data): seq<Field> {
    Present((if IsErrorEvent(d) then [] else [EventField(d)]) + LaterDataFields(d))
  }

  /** The type-specific error fields of "bounced" and "dropped" events. */
  function TypeSpecificFields(d: Data): seq<Field> {
    if d.eventType == "bounced" then
      [Field("SMTP Code", d.smtpCode, true), Field("SMTP Error", d.smtpError, false)]
    else if d.eventType == "dropped" then
      [Field("Reason", d.reason, true), Field("ESP Code", d.espCode, true),
       Field("Description", d.description, false)]
    else []
  }

  /** The fields that belong to "Errors", in the order they are offered. */
  function ErrorFields(d: Data): seq<Field> {
    Present((if IsErrorEvent(d) then [EventField(d)] else []) + TypeSpecificFields(d))
  }

  /**
   * What a message holds once `dataFields` went to "Data" and `errorFields` to
   * "Errors": each attachment exists only if it holds a field, "Errors" is
   * colored "danger" and raises the alert icon, and `errorsFirst` says which
   * attachment was created first.
   */
  datatype Shape = Shape(dataFields: seq<Field>, errorFields: seq<Field>, errorsFirst: bool)

  function Arranged(s: Shape): seq<Attachment> {
    var data := if s.dataFields == [] then [] else [Attachment(DataAttachmentName, "", s.dataFields)];
    var errors := if s.errorFields == [] then [] else [Attachment(ErrorAttachmentName, Danger, s.errorFields)];
    if s.errorsFirst then errors + data else data + errors
  }

  function Render(text: string, s: Shape): Payload {
    Payload(DefaultUsername, text, if s.errorFields == [] then DefaultEmoji else AlertEmoji, Arranged(s))
  }

  /**
   * The message `newSlackMessageFromMailGunData` is specified to build: the
   * summary text, "Data" with the present data fields and "Errors" with the
   * present error fields, "Errors" first exactly for an error event.
   */
  function Notification(d: Data): Payload {
    Render(SummaryPrefix + d.domain, Shape(DataFields(d), ErrorFields(d), IsErrorEvent(d)))
  }

  function AfterData(s: Shape, f: Field): Shape {
    if f.value == "" then s
    else Shape(s.dataFields + [f], s.errorFields,
               s.errorsFirst || (s.dataFields == [] && s.errorFields != []))
  }

  function AfterError(s: Shape, f: Field): Shape {
    if f.value == "" then s
    else Shape(s.dataFields, s.errorFields + [f],
               s.errorsFirst && !(s.errorFields == [] && s.dataFields != []))
  }

  /** Where each attachment sits in an arranged message. */
  lemma ArrangedIndex(s: Shape)
    ensures IndexOf(Arranged(s), DataAttachmentName) ==
      if s.dataFields == [] then NotFound
      else if s.errorsFirst && s.errorFields != [] then 1 else 0
    ensures IndexOf(Arranged(s), ErrorAttachmentName) ==
      if s.errorFields == [] then NotFound
      else if !s.errorsFirst && s.dataFields != [] then 1 else 0
  {
    var atts := Arranged(s);
    assert DataAttachmentName != ErrorAttachmentName by {
      assert |DataAttachmentName| != |ErrorAttachmentName|;
    }
    if s.dataFields != [] && s.errorFields != [] {
      assert |atts| == 2;
    }
  }

  lemma DataStepMiss(s: Shape, f: Field)
    requires s.dataFields == [] && f.value != ""
    ensures WithField(Arranged(s), DataAttachmentName, f) == Arranged(AfterData(s, f))
  {
    ArrangedIndex(s);
    WithFieldMiss(Arranged(s), DataAttachmentName, f);
    var data := [Attachment(DataAttachmentName, "", [f])];
    if s.errorFields == [] {
      assert Arranged(s) == [] && Arranged(AfterData(s, f)) == data;
    } else {
      assert Arranged(AfterData(s, f)) == [Attachment(ErrorAttachmentName, Danger, s.errorFields)] + data;
    }
  }

  lemma DataStepHit(s: Shape, f: Field)
    requires s.dataFields != [] && f.value != ""
    ensures WithField(Arranged(s), DataAttachmentName, f) == Arranged(AfterData(s, f))
  {
    var atts := Arranged(s);
    ArrangedIndex(s);
    WithFieldHit(atts, DataAttachmentName, f);
    var i := IndexOf(atts, DataAttachmentName);
    assert Arranged(AfterData(s, f)) == atts[i := Attachment(DataAttachmentName, "", s.dataFields + [f])];
  }

  /** `AddData` moves a rendered message to the rendering of the next shape. */
  lemma AddDataStep(text: string, s: Shape, f: Field)
    ensures AfterAddData(Render(text, s), f.title, f.value, f.short) == Render(text, AfterData(s, f))
  {
    if f.value != "" {
      if s.dataFields == [] {
        DataStepMiss(s, f);
      } else {
        DataStepHit(s, f);
      }
    }
  }

  /** The "Errors" attachment after a field is added and it is colored. */
  function Escalated(atts: seq<Attachment>, f: Field): seq<Attachment> {
    var added := WithField(atts, ErrorAttachmentName, f);
    var i := IndexOf(added, ErrorAttachmentName);
    added[i := added[i].(color := Danger)]
  }

  lemma ErrorStepMiss(s: Shape, f: Field)
    requires s.errorFields == [] && f.value != ""
    ensures Escalated(Arranged(s), f) == Arranged(AfterError(s, f))
  {
    var atts := Arranged(s);
    ArrangedIndex(s);
    WithFieldMiss(atts, ErrorAttachmentName, f);
    assert IndexOf(WithField(atts, ErrorAttachmentName, f), ErrorAttachmentName) == |atts|;
    assert Arranged(AfterError(s, f)) == atts + [Attachment(ErrorAttachmentName, Danger, [f])];
  }

  lemma ErrorStepHit(s: Shape, f: Field)
    requires s.errorFields != [] && f.value != ""
    ensures Escalated(Arranged(s), f) == Arranged(AfterError(s, f))
  {
    var atts := Arranged(s);
    ArrangedIndex(s);
    WithFieldHit(atts, ErrorAttachmentName, f);
    var i := IndexOf(atts, ErrorAttachmentName);
    assert IndexOf(WithField(atts, ErrorAttachmentName, f), ErrorAttachmentName) == i;
    assert Arranged(AfterError(s, f)) == atts[i := Attachment(ErrorAttachmentName, Danger, s.errorFields + [f])];
  }

  /** `AddError` moves a rendered message to the rendering of the next shape. */
  lemma AddErrorStep(text: string, s: Shape, f: Field)
    ensures AfterAddError(Render(text, s), f.title, f.value, f.short) == Render(text, AfterError(s, f))
  {
    if f.value != "" {
      if s.errorFields == [] {
        ErrorStepMiss(s, f);
      } else {
        ErrorStepHit(s, f);
      }
      assert AfterAddError(Render(text, s), f.title, f.value, f.short).attachments == Escalated(Arranged(s), f);
    }
  }

  /** Offering a field to "Data" keeps the shape's data fields the present ones. */
  lemma OfferData(s: Shape, offered: seq<Field>, f: Field)
    requires s.dataFields == Present(offered)
    ensures AfterData(s, f).dataFields == Present(offered + [f])
    ensures AfterData(s, f).errorFields == s.errorFields
    ensures s.errorsFirst ==> AfterData(s, f).errorsFirst
    ensures s.errorFields == [] ==> AfterData(s, f).errorsFirst == s.errorsFirst
  {
    PresentAppend(offered, [f]);
    assert Present([f]) == if f.value == "" then [] else [f];
  }

  /** Offering a field to "Errors" keeps the shape's error fields the present ones. */
  lemma OfferError(s: Shape, offered: seq<Field>, f: Field)
    requires s.errorFields == Present(offered)
    ensures AfterError(s, f).errorFields == Present(offered + [f])
    ensures AfterError(s, f).dataFields == s.dataFields
    ensures !s.errorsFirst ==> !AfterError(s, f).errorsFirst
    ensures s.errorFields != [] ==> AfterError(s, f).errorsFirst == s.errorsFirst
  {
    PresentAppend(offered, [f]);
    assert Present([f]) == if f.value == "" then [] else [f];
  }

  /** The shape after the event field and the three data fields are offered. */
  function DataPhase(d: Data): Shape {
    var start := Shape([], [], IsErrorEvent(d));
    var s := if IsErrorEvent(d) then AfterError(start, EventField(d)) else AfterData(start, EventField(d));
    var s := AfterData(s, Field("Message ID", d.messageId, false));
    var s := AfterData(s, Field("Recipient", d.recipient, true));
    AfterData(s, Field("Subject", d.subject, true))
  }

  /** The shape after the type-specific error fields are offered. */
  function ErrorPhase(d: Data, s: Shape): Shape {
    if d.eventType == "bounced" then
      var s := AfterError(s, Field("SMTP Code", d.smtpCode, true));
      AfterError(s, Field("SMTP Error", d.smtpError, false))
    else if d.eventType == "dropped" then
      var s := AfterError(s, Field("Reason", d.reason, true));
      var s := AfterError(s, Field("ESP Code", d.espCode, true));
      AfterError(s, Field("Description", d.description, false))
    else s
  }

  lemma DataPhaseShape(d: Data)
    ensures DataPhase(d).dataFields == DataFields(d)
    ensures DataPhase(d).errorFields == Present(if IsErrorEvent(d) then [EventField(d)] else [])
    ensures DataPhase(d).errorsFirst == IsErrorEvent(d)
    ensures IsErrorEvent(d) <==> DataPhase(d).errorFields != []
  {
    var start := Shape([], [], IsErrorEvent(d));
    var event := EventField(d);
    var s0, toData, toErrors;
    if IsErrorEvent(d) {
      OfferError(start, [], event);
      s0, toData, toErrors := AfterError(start, event), [], [event];
      assert s0.errorFields == [event];
    } else {
      OfferData(start, [], event);
      s0, toData, toErrors := AfterData(start, event), [event], [];
    }
    var f1, f2, f3 := LaterDataFields(d)[0], LaterDataFields(d)[1], LaterDataFields(d)[2];
    OfferData(s0, toData, f1);
    var s1 := AfterData(s0, f1);
    OfferData(s1, toData + [f1], f2);
    var s2 := AfterData(s1, f2);
    OfferData(s2, toData + [f1] + [f2], f3);
    assert toData + [f1] + [f2] + [f3] == toData + LaterDataFields(d);
  }

  lemma ErrorPhaseShape(d: Data, s: Shape, offered: seq<Field>)
    requires s.errorFields == Present(offered)
    requires s.errorFields != [] ==> s.errorsFirst == IsErrorEvent(d)
    requires s.errorFields == [] ==> !IsErrorEvent(d)
    requires !IsErrorEvent(d) ==> !s.errorsFirst
    ensures ErrorPhase(d, s).dataFields == s.dataFields
    ensures ErrorPhase(d, s).errorFields == Present(offered + TypeSpecificFields(d))
    ensures ErrorPhase(d, s).errorsFirst == IsErrorEvent(d)
  {
    if d.eventType == "bounced" {
      var f1, f2 := Field("SMTP Code", d.smtpCode, true), Field("SMTP Error", d.smtpError, false);
      OfferError(s, offered, f1);
      OfferError(AfterError(s, f1), offered + [f1], f2);
      assert offered + [f1] + [f2] == offered + TypeSpecificFields(d);
    } else if d.eventType == "dropped" {
      var f1, f2, f3 := Field("Reason", d.reason, true), Field("ESP Code", d.espCode, true),
                        Field("Description", d.description, false);
      OfferError(s, offered, f1);
      var s1 := AfterError(s, f1);
      OfferError(s1, offered + [f1], f2);
      OfferError(AfterError(s1, f2), offered + [f1] + [f2], f3);
      assert offered + [f1] + [f2] + [f3] == offered + TypeSpecificFields(d);
    } else {
      assert offered + TypeSpecificFields(d) == offered;
    }
  }

  /** The two phases together reach the shape `Notification` renders. */
  lemma BuildShape(d: Data)
    ensures ErrorPhase(d, DataPhase(d)) == Shape(DataFields(d), ErrorFields(d), IsErrorEvent(d))
  {
    DataPhaseShape(d);
    var offered := if IsErrorEvent(d) then [EventField(d)] else [];
    ErrorPhaseShape(d, DataPhase(d), offered);
  }

  /** `newSlackMessageFromMailGunData`. */
  method NewSlackMessageFromMailGunData(d: Data) returns (msg: Message)
    ensures fresh(msg)
    ensures msg.ToPayload() == Notification(d)
  {
    var text := SummaryPrefix + d.domain;
    msg := new Message(text);
    ghost var s := Shape([], [], IsErrorEvent(d));   // the shape reached so far

    if IsErrorEvent(d) {
      AddErrorStep(text, s, EventField(d));
      msg.AddError("Event", d.eventType, true);
      s := AfterError(s, EventField(d));
    } else {
      AddDataStep(text, s, EventField(d));
      msg.AddData("Event", d.eventType, true);
      s := AfterData(s, EventField(d));
    }
    AddDataStep(text, s, Field("Message ID", d.messageId, false));
    msg.AddData("Message ID", d.messageId, false);
    s := AfterData(s, Field("Message ID", d.messageId, false));
    AddDataStep(text, s, Field("Recipient", d.recipient, true));
    msg.AddData("Recipient", d.recipient, true);
    s := AfterData(s, Field("Recipient", d.recipient, true));
    AddDataStep(text, s, Field("Subject", d.subject, true));
    msg.AddData("Subject", d.subject, true);
    s := AfterData(s, Field("Subject", d.subject, true));
    assert s == DataPhase(d);

    if d.eventType == "bounced" {
      AddErrorStep(text, s, Field("SMTP Code", d.smtpCode, true));
      msg.AddError("SMTP Code", d.smtpCode, true);
      s := AfterError(s, Field("SMTP Code", d.smtpCode, true));
      AddErrorStep(text, s, Field("SMTP Error", d.smtpError, false));
      msg.AddError("SMTP Error", d.smtpError, false);
    } else if d.eventType == "dropped" {
      AddErrorStep(text, s, Field("Reason", d.reason, true));
      msg.AddError("Reason", d.reason, true);
      s := AfterError(s, Field("Reason", d.reason, true));
      AddErrorStep(text, s, Field("ESP Code", d.espCode, true));
      msg.AddError("ESP Code", d.espCode, true);
      s := AfterError(s, Field("ESP Code", d.espCode, true));
      AddErrorStep(text, s, Field("Description", d.description, false));
      msg.AddError("Description", d.description, false);
    }
    BuildShape(d);
  }

  /** The notification always has the same sender and the domain summary. */
  lemma NotificationHeader(d: Data)
    ensures Notification(d).username == "magsli"
    ensures Notification(d).text == "MailGun message for domain: " + d.domain
  {
  }

  /**
   * At most two attachments, named "Data" or "Errors", each once and each
   * holding a field.
   */
  lemma NotificationWellFormed(d: Data)
    ensures var atts := Notification(d).attachments;
      |atts| <= 2 &&
      (forall i :: 0 <= i < |atts| ==> atts[i].fallback in {DataAttachmentName, ErrorAttachmentName}) &&
      WellFormed(atts)
  {
    assert DataAttachmentName != ErrorAttachmentName by {
      assert |DataAttachmentName| != |ErrorAttachmentName|;
    }
  }

  /**
   * Each attachment holds exactly the present fields offered to it, and
   * "Errors" exists exactly when the icon is the alert, always colored
   * "danger", while "Data" is never colored.
   */
  lemma NotificationContents(d: Data)
    ensures var atts := Notification(d).attachments;
      FieldsOf(atts, DataAttachmentName) == DataFields(d) &&
      FieldsOf(atts, ErrorAttachmentName) == ErrorFields(d) &&
      (Notification(d).iconEmoji == AlertEmoji <==> IndexOf(atts, ErrorAttachmentName) != NotFound) &&
      (Notification(d).iconEmoji != AlertEmoji ==> Notification(d).iconEmoji == DefaultEmoji) &&
      (IndexOf(atts, ErrorAttachmentName) != NotFound ==> ColorOf(atts, ErrorAttachmentName) == Danger) &&
      ColorOf(atts, DataAttachmentName) == ""
  {
    ArrangedIndex(Shape(DataFields(d), ErrorFields(d), IsErrorEvent(d)));
  }

  /** None of the fields offered after the event field is titled "Event". */
  lemma OtherTitles(d: Data)
    ensures forall f :: f in Present(LaterDataFields(d)) ==> f.title != "Event"
    ensures forall f :: f in Present(TypeSpecificFields(d)) ==> f.title != "Event"
  {
    PresentTitles(LaterDataFields(d));
    PresentTitles(TypeSpecificFields(d));
    assert "Message ID"[0] != 'E' && "Recipient"[0] != 'E' && "Subject"[0] != 'E';
    assert "SMTP Code"[0] != 'E' && "SMTP Error"[0] != 'E' && "Reason"[0] != 'E';
    assert "ESP Code"[1] != 'v' && "Description"[0] != 'E';
  }

  /**
   * The event field opens "Errors" for an error event and "Data" otherwise,
   * and is left out when the event type is empty.
   */
  lemma EventFieldPlacement(d: Data)
    ensures d.eventType != "" && IsErrorEvent(d) ==>
      ErrorFields(d)[0] == EventField(d) && EventField(d) !in DataFields(d)
    ensures d.eventType != "" && !IsErrorEvent(d) ==>
      DataFields(d)[0] == EventField(d) && ErrorFields(d) == []
    ensures d.eventType == "" ==>
      (forall f :: f in DataFields(d) ==> f.title != "Event") &&
      (forall f :: f in ErrorFields(d) ==> f.title != "Event")
  {
    OtherTitles(d);
    var event := EventField(d);
    if IsErrorEvent(d) {
      PresentAppend([event], TypeSpecificFields(d));
      assert [] + LaterDataFields(d) == LaterDataFields(d);
    } else {
      PresentAppend([event], LaterDataFields(d));
      assert TypeSpecificFields(d) == [];
      assert [] + TypeSpecificFields(d) == [];
    }
  }

  /** Filtering keeps only fields that were offered. */
  lemma {:induction false} PresentTitles(fs: seq<Field>)
    ensures forall f :: f in Present(fs) ==> f in fs
    decreases |fs|
  {
    if fs != [] {
      PresentTitles(fs[1..]);
      forall f | f in Present(fs) ensures f in fs {
        if f in Present(fs[1..]) {
          assert f in fs[1..];
        }
      }
    }
  }

  /**
   * A bounce with SMTP code "550", no SMTP error and a recipient: the event and
   * the code go to "Errors" (colored "danger"), the recipient to "Data", the
   * empty SMTP error nowhere, and the icon is the alert.
   */
  lemma BounceExample()
    ensures var d := Zero.(eventType := "bounced", smtpCode := "550", recipient := "a@b.com");
      Notification(d) == Payload("magsli", "MailGun message for domain: ", ":rotating_light:",
        [Attachment("Errors", "danger", [Field("Event", "bounced", true), Field("SMTP Code", "550", true)]),
         Attachment("Data", "", [Field("Recipient", "a@b.com", true)])])
  {
    var d := Zero.(eventType := "bounced", smtpCode := "550", recipient := "a@b.com");
    var tail := LaterDataFields(d);
    assert Present(tail) == [Field("Recipient", "a@b.com", true)] by {
      assert tail[1..][1..][1..] == [];
    }
    assert IsErrorEvent(d);
    assert DataFields(d) == Present(tail) by {
      assert [] + tail == tail;
    }
    var errs := [Field("Event", "bounced", true), Field("SMTP Code", "550", true), Field("SMTP Error", "", false)];
    assert ErrorFields(d) == Present(errs);
    assert Present(errs) == [Field("Event", "bounced", true), Field("SMTP Code", "550", true)] by {
      assert errs[1..][1..][1..] == [];
    }
  }

  // ------------------------------------------------------------------ handler

  /** What one request leads to; the send itself is not modelled. */
  datatype Outcome =
    | Ignored                          // the signature did not verify
    | Undecodable(err: Option<string>) // the decoded record was the zero value
    | Crashed(reason: string)          // decoding panicked
    | Sent(message: Payload)           // the message handed to `Send`

  /**
   * `handler`: verify, decode, build, send; an invalid signature stops before
   * decoding and a zero record stops before building, whatever the error.
   * The signature check reads the form first, which parses it and drops any
   * parse error; a later `ParseForm` on the same request reports nothing, so
   * decoding inside the handler never sees a parse error.
   */
  method Handle(apiKey: string, req: Request, hmac: Mac, unmarshal: Unmarshal) returns (o: Outcome)
    ensures !VerifyMessage(apiKey, req, hmac).valid ==> o == Ignored
    ensures VerifyMessage(apiKey, req, hmac).valid ==>
      match NewMailGunData(req.(parseError := None), unmarshal)
      case Panicked(why) => o == Crashed(why)
      case Returned(decoded) =>
        if decoded.data == Zero then o == Undecodable(decoded.err)
        else o == Sent(Notification(decoded.data))
    ensures o.Sent? ==> Hex.Decode(FormValue(req, "signature")) == Success(ExpectedMac(apiKey, req, hmac))
    ensures o.Undecodable? ==> o.err.None?
  {
    var verdict := VerifyMessage(apiKey, req, hmac);
    if !verdict.valid {
      return Ignored;
    }
    var parsed := req.(parseError := None);   // the form was parsed by the signature check
    var decoded := NewMailGunData(parsed, unmarshal);
    if decoded.Panicked? {
      return Crashed(decoded.reason);
    }
    var data, err := decoded.value.data, decoded.value.err;
    if data == Zero {
      return Undecodable(err);
    }
    var msg := NewSlackMessageFromMailGunData(data);
    return Sent(msg.ToPayload());
  }
}
