/**
 * The outbound side: a Slack message that accumulates fields into attachments
 * found or created by name (slack/slack.go). The in-place Go slice is the
 * `attachments` field of class `Message`; a pointer into it is an index.
 */
module Slack {
  import opened Wrappers

  const DataAttachmentName := "Data"
  const ErrorAttachmentName := "Errors"
  const NotFound := -1

  const DefaultUsername := "magsli"
  const DefaultEmoji := ":moyai:"
  const AlertEmoji := ":rotating_light:"
  const Danger := "danger"
  const NoValueInData := "no value in data"

  datatype Field = Field(title: string, value: string, short: bool)

  datatype Attachment = Attachment(fallback: string, color: string, fields: seq<Field>)

  /** A message as a value: the four fields `Send` serializes. */
  datatype Payload = Payload(username: string, text: string, iconEmoji: string, attachments: seq<Attachment>)

  /** No two attachments share a fallback name. */
  predicate UniqueFallbacks(atts: seq<Attachment>) {
    forall i, j :: 0 <= i < j < |atts| ==> atts[i].fallback != atts[j].fallback
  }

  /** Every attachment holds at least one field. */
  predicate NoEmptyAttachment(atts: seq<Attachment>) {
    forall i :: 0 <= i < |atts| ==> atts[i].fields != []
  }

  predicate WellFormed(atts: seq<Attachment>) {
    UniqueFallbacks(atts) && NoEmptyAttachment(atts)
  }

  /** The position of the first attachment with the given fallback, or `NotFound`. */
  function IndexOf(atts: seq<Attachment>, name: string): (i: int)
    ensures NotFound <= i < |atts|
    ensures i == NotFound <==> forall j :: 0 <= j < |atts| ==> atts[j].fallback != name
    ensures i != NotFound ==> atts[i].fallback == name
    ensures i != NotFound ==> forall j :: 0 <= j < i ==> atts[j].fallback != name
    decreases |atts|
  {
    if |atts| == 0 then NotFound
    else if atts[0].fallback == name then 0
    else
      var k := IndexOf(atts[1..], name);
      if k == NotFound then NotFound else k + 1
  }

  /** Only fallbacks matter to `IndexOf`. */
  lemma IndexOfSameFallbacks(a: seq<Attachment>, b: seq<Attachment>, name: string)
    requires |a| == |b|
    requires forall j :: 0 <= j < |a| ==> a[j].fallback == b[j].fallback
    ensures IndexOf(a, name) == IndexOf(b, name)
  {
  }

  /** The fields of the named attachment, none if there is no such attachment. */
  function FieldsOf(atts: seq<Attachment>, name: string): seq<Field> {
    var i := IndexOf(atts, name);
    if i == NotFound then [] else atts[i].fields
  }

  /** The color of the named attachment, "" if there is no such attachment. */
  function ColorOf(atts: seq<Attachment>, name: string): string {
    var i := IndexOf(atts, name);
    if i == NotFound then "" else atts[i].color
  }

  /** The slice after `findOrCreateAttachment(name)`. */
  function FoundOrCreated(atts: seq<Attachment>, name: string): (r: seq<Attachment>)
    ensures IndexOf(atts, name) != NotFound ==> r == atts
    ensures IndexOf(atts, name) == NotFound ==>
      |r| == |atts| + 1 && r[..|atts|] == atts && r[|atts|] == Attachment(name, "", [])
    ensures IndexOf(r, name) ==
      if IndexOf(atts, name) == NotFound then |atts| else IndexOf(atts, name)
  {
    if IndexOf(atts, name) == NotFound then atts + [Attachment(name, "", [])] else atts
  }

  /** The slice after a field is appended to the named attachment, created on a miss. */
  function WithField(atts: seq<Attachment>, name: string, f: Field): (r: seq<Attachment>)
    ensures |r| == if IndexOf(atts, name) == NotFound then |atts| + 1 else |atts|
    ensures IndexOf(r, name) ==
      if IndexOf(atts, name) == NotFound then |atts| else IndexOf(atts, name)
    ensures r[IndexOf(r, name)] ==
      Attachment(name, ColorOf(atts, name), FieldsOf(atts, name) + [f])
    ensures forall j :: 0 <= j < |atts| && j != IndexOf(atts, name) ==> r[j] == atts[j]
  {
    var created := FoundOrCreated(atts, name);
    var i := IndexOf(created, name);
    var r := created[i := created[i].(fields := created[i].fields + [f])];
    IndexOfSameFallbacks(created, r, name);
    r
  }

  /** On a miss, the field goes into a new attachment at the end. */
  lemma WithFieldMiss(atts: seq<Attachment>, name: string, f: Field)
    requires IndexOf(atts, name) == NotFound
    ensures WithField(atts, name, f) == atts + [Attachment(name, "", [f])]
  {
    var r := WithField(atts, name, f);
    assert r[|atts|] == Attachment(name, "", [f]);
  }

  /** On a hit, the field is appended to the attachment found, in place. */
  lemma WithFieldHit(atts: seq<Attachment>, name: string, f: Field)
    requires IndexOf(atts, name) != NotFound
    ensures var i := IndexOf(atts, name);
      WithField(atts, name, f) == atts[i := atts[i].(fields := atts[i].fields + [f])]
  {
  }

  /** The message after `addDataToAttachment(name, f.title, f.value, f.short)`. */
  function AfterAdd(p: Payload, name: string, f: Field): Payload {
    if f.value == "" then p
    else p.(attachments := WithField(p.attachments, name, f))
  }

  /** The message after `AddData(title, value, isShort)`. */
  function AfterAddData(p: Payload, title: string, value: string, isShort: bool): Payload {
    AfterAdd(p, DataAttachmentName, Field(title, value, isShort))
  }

  /** The message after `AddError(title, value, isShort)`. */
  function AfterAddError(p: Payload, title: string, value: string, isShort: bool): Payload {
    if value == "" then p
    else
      var atts := WithField(p.attachments, ErrorAttachmentName, Field(title, value, isShort));
      var i := IndexOf(atts, ErrorAttachmentName);
      p.(iconEmoji := AlertEmoji, attachments := atts[i := atts[i].(color := Danger)])
  }

  /** Appending a field keeps fallbacks unique and every attachment non-empty. */
  lemma WithFieldKeepsWellFormed(atts: seq<Attachment>, name: string, f: Field)
    requires WellFormed(atts)
    ensures WellFormed(WithField(atts, name, f))
  {
    var r := WithField(atts, name, f);
    var k := IndexOf(r, name);
    forall i, j | 0 <= i < j < |r| ensures r[i].fallback != r[j].fallback {
      if j == k && k == |atts| {
        assert r[i] == atts[i];
      }
    }
  }

  /**
   * `AddData` never touches the username, the text, the icon or any color:
   * the attachments keep their order, names and colors, and one created on
   * a miss has no color.
   */
  lemma AddDataKeepsLook(p: Payload, title: string, value: string, isShort: bool)
    ensures var r := AfterAddData(p, title, value, isShort);
      r.username == p.username && r.text == p.text && r.iconEmoji == p.iconEmoji &&
      |r.attachments| >= |p.attachments| &&
      (forall j :: 0 <= j < |p.attachments| ==>
        r.attachments[j].fallback == p.attachments[j].fallback &&
        r.attachments[j].color == p.attachments[j].color) &&
      (forall j :: |p.attachments| <= j < |r.attachments| ==> r.attachments[j].color == "")
  {
    if value != "" {
      var f := Field(title, value, isShort);
      var r := WithField(p.attachments, DataAttachmentName, f);
      var k := IndexOf(p.attachments, DataAttachmentName);
      if k != NotFound {
        assert r[k].color == p.attachments[k].color;
      }
    }
  }

  /**
   * A non-empty `AddError` appends the field to "Errors", colors that
   * attachment "danger" and raises the alert icon; an empty one changes
   * nothing.
   */
  lemma AddErrorEscalates(p: Payload, title: string, value: string, isShort: bool)
    ensures value == "" ==> AfterAddError(p, title, value, isShort) == p
    ensures value != "" ==>
      var r := AfterAddError(p, title, value, isShort);
      var i := IndexOf(r.attachments, ErrorAttachmentName);
      r.username == p.username && r.text == p.text && r.iconEmoji == AlertEmoji &&
      i != NotFound && r.attachments[i].color == Danger &&
      r.attachments[i].fields == FieldsOf(p.attachments, ErrorAttachmentName) + [Field(title, value, isShort)]
  {
    if value != "" {
      var atts := WithField(p.attachments, ErrorAttachmentName, Field(title, value, isShort));
      var i := IndexOf(atts, ErrorAttachmentName);
      var escalated := atts[i := atts[i].(color := Danger)];
      IndexOfSameFallbacks(atts, escalated, ErrorAttachmentName);
    }
  }

  /** Recoloring an attachment keeps the attachments well formed. */
  lemma RecolorKeepsWellFormed(atts: seq<Attachment>, i: nat, color: string)
    requires i < |atts| && WellFormed(atts)
    ensures WellFormed(atts[i := atts[i].(color := color)])
  {
    var r := atts[i := atts[i].(color := color)];
    assert forall j :: 0 <= j < |atts| ==> r[j].fallback == atts[j].fallback && r[j].fields == atts[j].fields;
  }

  /** Both adds keep the attachments well formed. */
  lemma AddsKeepWellFormed(p: Payload, title: string, value: string, isShort: bool)
    requires WellFormed(p.attachments)
    ensures WellFormed(AfterAddData(p, title, value, isShort).attachments)
    ensures WellFormed(AfterAddError(p, title, value, isShort).attachments)
  {
    if value != "" {
      var f := Field(title, value, isShort);
      WithFieldKeepsWellFormed(p.attachments, DataAttachmentName, f);
      WithFieldKeepsWellFormed(p.attachments, ErrorAttachmentName, f);
      var atts := WithField(p.attachments, ErrorAttachmentName, f);
      RecolorKeepsWellFormed(atts, IndexOf(atts, ErrorAttachmentName), Danger);
    }
  }

  /**
   * Two adds to the same missing attachment create it once, at the end, with
   * both fields in call order.
   */
  lemma SecondAddReusesAttachment(atts: seq<Attachment>, name: string, f1: Field, f2: Field)
    requires IndexOf(atts, name) == NotFound
    ensures WithField(WithField(atts, name, f1), name, f2) == atts + [Attachment(name, "", [f1, f2])]
  {
    var once := atts + [Attachment(name, "", [f1])];
    assert WithField(atts, name, f1) == once by {
      WithFieldMiss(atts, name, f1);
    }
    assert IndexOf(once, name) == |atts| by {
      AppendedIndex(atts, Attachment(name, "", [f1]), name);
    }
    assert WithField(once, name, f2) == atts + [Attachment(name, "", [f1, f2])] by {
      WithFieldHit(once, name, f2);
      assert [f1] + [f2] == [f1, f2];
    }
  }

  /** An attachment appended under a new name is found at the end. */
  lemma AppendedIndex(atts: seq<Attachment>, a: Attachment, name: string)
    requires IndexOf(atts, name) == NotFound && a.fallback == name
    ensures IndexOf(atts + [a], name) == |atts|
  {
    var r := atts + [a];
    assert forall j :: 0 <= j < |atts| ==> r[j] == atts[j];
    assert forall j :: 0 <= j < |atts| ==> r[j].fallback != name;
    assert r[|atts|].fallback == name;
    var k := IndexOf(r, name);
    assert k != NotFound;
    assert !(k < |atts|);
  }

  /** A Slack message under construction (`Message`). */
  class Message {
    var username: string
    var text: string
    var iconEmoji: string
    var attachments: seq<Attachment>

    function ToPayload(): Payload
      reads this
    {
      Payload(username, text, iconEmoji, attachments)
    }

    /** `NewMessage(text)`: default username and icon, no attachments. */
    constructor (text: string)
      ensures ToPayload() == Payload(DefaultUsername, text, DefaultEmoji, [])
    {
      username := DefaultUsername;
      this.text := text;
      iconEmoji := DefaultEmoji;
      attachments := [];
    }

    /** `AddData`: add a field to the "Data" attachment. */
    method AddData(title: string, value: string, isShort: bool)
      modifies this
      ensures ToPayload() == AfterAddData(old(ToPayload()), title, value, isShort)
      ensures old(WellFormed(attachments)) ==> WellFormed(attachments)
    {
      if WellFormed(attachments) {
        AddsKeepWellFormed(ToPayload(), title, value, isShort);
      }
      var _ := AddDataToAttachment(DataAttachmentName, title, value, isShort);
    }

    /** `AddError`: add a field to the "Errors" attachment and escalate. */
    method AddError(title: string, value: string, isShort: bool)
      modifies this
      ensures ToPayload() == AfterAddError(old(ToPayload()), title, value, isShort)
      ensures old(WellFormed(attachments)) ==> WellFormed(attachments)
    {
      if WellFormed(attachments) {
        AddsKeepWellFormed(ToPayload(), title, value, isShort);
      }
      var a := AddDataToAttachment(ErrorAttachmentName, title, value, isShort);
      if a.Failure? {
        return;
      }
      attachments := attachments[a.value := attachments[a.value].(color := Danger)];
      iconEmoji := AlertEmoji;
    }

    /**
     * `addDataToAttachment`: an empty value is an error and changes nothing;
     * otherwise the field is appended to the attachment found or created by
     * name, whose position is returned.
     */
    method AddDataToAttachment(attachmentName: string, title: string, value: string, isShort: bool)
      returns (a: Result<nat, string>)
      modifies this
      ensures value == "" ==> a == Failure(NoValueInData) && ToPayload() == old(ToPayload())
      ensures value != "" ==>
        ToPayload() == old(ToPayload()).(attachments :=
          WithField(old(attachments), attachmentName, Field(title, value, isShort))) &&
        a == Success(IndexOf(attachments, attachmentName))
    {
      if value == "" {
        return Failure(NoValueInData);
      }
      var i := FindOrCreateAttachment(attachmentName);
      var f := Field(title, value, isShort);
      attachments := attachments[i := attachments[i].(fields := attachments[i].fields + [f])];
      return Success(i);
    }

    /** `findAttachment`: the first attachment with this fallback, or `NotFound`. */
    method FindAttachment(name: string) returns (index: int)
      ensures index == NotFound <==> forall j :: 0 <= j < |attachments| ==> attachments[j].fallback != name
      ensures index != NotFound ==>
        0 <= index < |attachments| && attachments[index].fallback == name &&
        forall j :: 0 <= j < index ==> attachments[j].fallback != name
      ensures index == IndexOf(attachments, name)
    {
      var i := 0;
      while i < |attachments|
        invariant 0 <= i <= |attachments|
        invariant forall j :: 0 <= j < i ==> attachments[j].fallback != name
      {
        if attachments[i].fallback == name {
          return i;
        }
        i := i + 1;
      }
      return NotFound;
    }

    /** `newAttachment`: append an empty attachment and return its position. */
    method NewAttachment() returns (index: nat)
      modifies this
      ensures attachments == old(attachments) + [Attachment("", "", [])]
      ensures index == |old(attachments)|
      ensures username == old(username) && text == old(text) && iconEmoji == old(iconEmoji)
    {
      attachments := attachments + [Attachment("", "", [])];
      return |attachments| - 1;
    }

    /** `findOrCreateAttachment`: the named attachment, appended on a miss. */
    method FindOrCreateAttachment(name: string) returns (index: nat)
      modifies this
      ensures attachments == FoundOrCreated(old(attachments), name)
      ensures index == IndexOf(attachments, name)
      ensures username == old(username) && text == old(text) && iconEmoji == old(iconEmoji)
    {
      var i := FindAttachment(name);
      if i == NotFound {
        index := NewAttachment();
        attachments := attachments[index := attachments[index].(fallback := name)];
        assert attachments == old(attachments) + [Attachment(name, "", [])];
        return index;
      }
      return i;
    }
  }
}
