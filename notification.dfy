/** The outgoing messages the relays build: Mattermost slash responses with
    attachments, PagerDuty events and OpsGenie alerts, plus the two loops
    over a payload's ExtraData map that several relays share. */
module Notification {
  import opened Common

  const Red: string := "#FF0000"
  const Green: string := "#006400"
  const AwsIcon: string := "https://cdn2.iconfinder.com/data/icons/amazon-aws-stencils/100/Non-Service_Specific_copy__AWS_Cloud-128.png"

  datatype Field = Field(title: string, value: string, short: bool)

  /** An attachment as it is posted. Only the colour, the title and the
      fields are ever set by the relays; the other members stay nil. */
  datatype AttachmentValue = AttachmentValue(color: string, title: Option<string>, fields: seq<Field>)

  datatype SlashResponse = SlashResponse(username: string, iconURL: string, attachments: seq<AttachmentValue>)

  /** mmAttachment while it is being built. */
  class Attachment {
    var color: string
    var title: Option<string>
    var fields: seq<Field>

    constructor (color: string)
      ensures this.color == color && title == None && fields == []
    {
      this.color := color;
      title := None;
      fields := [];
    }

    /** Appends one field at the end and leaves the earlier ones as they were. */
    method AddField(f: Field)
      modifies this
      ensures fields == old(fields) + [f]
      ensures color == old(color) && title == old(title)
    {
      fields := fields + [f];
    }

    function Value(): AttachmentValue
      reads this
    {
      AttachmentValue(color, title, fields)
    }
  }

  /** A PagerDuty Events v2 event. */
  datatype PagerDutyEvent = PagerDutyEvent(
    routingKey: string, action: string, summary: string, source: string, severity: string,
    details: map<string, string>)

  /** The only kind of event the relays send: a critical trigger from "Alarm System". */
  function TriggerEvent(routingKey: string, summary: string, details: map<string, string>): PagerDutyEvent
  {
    PagerDutyEvent(routingKey, "trigger", summary, "Alarm System", "critical", details)
  }

  datatype Priority = P1 | P2

  /** An OpsGenie CreateAlertRequest; the responder is always a schedule. */
  datatype OpsGenieAlert = OpsGenieAlert(
    message: string, description: string, scheduleResponders: seq<string>, tags: seq<string>,
    details: map<string, string>, priority: Priority)

  /** `fmt.Sprintf("%s: %s", key, value)` for one ExtraData entry. */
  function ExtraDataLine(key: string, value: string): string
  {
    key + ": " + value
  }

  /** `keys` lists every key of `m` exactly once: one possible order of a Go
      range loop over the map. */
  ghost predicate IsKeyOrder(keys: seq<string>, m: map<string, string>)
  {
    (forall i, j :: 0 <= i < j < |keys| ==> keys[i] != keys[j])
    && (forall k :: k in m <==> k in keys)
  }

  /** The ExtraData lines in the order `keys` visits them. */
  function LinesOf(keys: seq<string>, m: map<string, string>): (lines: seq<string>)
    requires forall k :: k in keys ==> k in m
    ensures |lines| == |keys|
    ensures forall i :: 0 <= i < |keys| ==> lines[i] == ExtraDataLine(keys[i], m[keys[i]])
  {
    if |keys| == 0 then [] else [ExtraDataLine(keys[0], m[keys[0]])] + LinesOf(keys[1..], m)
  }

  /** A key order of a map has exactly as many entries as the map. */
  lemma {:induction false} KeyOrderLength(keys: seq<string>, m: map<string, string>)
    requires IsKeyOrder(keys, m)
    ensures |keys| == |m|
    decreases |keys|
  {
    if |keys| == 0 {
      assert m.Keys == {};
    } else {
      var k := keys[0];
      var m' := map j | j in m && j != k :: m[j];
      assert m'.Keys == m.Keys - {k};
      forall j ensures j in m' <==> j in keys[1..] {
        if j in keys[1..] {
          var t :| 0 <= t < |keys[1..]| && keys[1..][t] == j;
          assert keys[t + 1] == j;
        }
      }
      KeyOrderLength(keys[1..], m');
    }
  }

  /** The loop that collects `"key: value"` for every ExtraData entry, in
      whatever order the map is ranged over. */
  method ExtraDataLines(extra: map<string, string>) returns (keys: seq<string>, lines: seq<string>)
    ensures IsKeyOrder(keys, extra)
    ensures lines == LinesOf(keys, extra)
  {
    keys := [];
    lines := [];
    var rest := extra.Keys;
    while rest != {}
      invariant rest <= extra.Keys
      invariant forall i, j :: 0 <= i < j < |keys| ==> keys[i] != keys[j]
      invariant forall k :: k in extra <==> k in rest || k in keys
      invariant forall k :: k in keys ==> k !in rest
      invariant lines == LinesOf(keys, extra)
      decreases rest
    {
      var k :| k in rest;
      LinesAppend(keys, [k], extra);
      keys := keys + [k];
      lines := lines + [ExtraDataLine(k, extra[k])];
      rest := rest - {k};
    }
  }

  lemma {:induction false} LinesAppend(a: seq<string>, b: seq<string>, m: map<string, string>)
    requires forall k :: k in a ==> k in m
    requires forall k :: k in b ==> k in m
    ensures LinesOf(a + b, m) == LinesOf(a, m) + LinesOf(b, m)
    decreases |a|
  {
    if |a| == 0 {
      assert a + b == b;
    } else {
      assert (a + b)[0] == a[0];
      assert (a + b)[1..] == a[1..] + b;
      LinesAppend(a[1..], b, m);
    }
  }

  /** The Extra Data field names every entry of the map. */
  lemma ExtraDataMentionsEveryEntry(keys: seq<string>, m: map<string, string>, k: string)
    requires IsKeyOrder(keys, m) && k in m
    ensures Contains(Join(LinesOf(keys, m), "\n"), ExtraDataLine(k, m[k]))
  {
    var i :| 0 <= i < |keys| && keys[i] == k;
    JoinContainsPart(LinesOf(keys, m), "\n", i);
  }

  /** The loop that copies every ExtraData entry over a fixed details map:
      an ExtraData key replaces a fixed one of the same name. */
  method MergeDetails(fixed: map<string, string>, extra: map<string, string>) returns (details: map<string, string>)
    ensures details == fixed + extra
  {
    details := fixed;
    var rest := extra.Keys;
    while rest != {}
      invariant rest <= extra.Keys
      invariant details == fixed + (map k | k in extra && k !in rest :: extra[k])
      decreases rest
    {
      var k :| k in rest;
      details := details[k := extra[k]];
      rest := rest - {k};
    }
    assert (map k | k in extra && k !in rest :: extra[k]) == extra;
  }

  /** The "Extra Data" field: one line per entry in the order `keys` gives,
      and present only when there is at least one entry. */
  function ExtraDataFields(extra: map<string, string>, keys: seq<string>): seq<Field>
    requires forall k :: k in keys ==> k in extra
  {
    if |extra| > 0 then [Field("Extra Data", Join(LinesOf(keys, extra), "\n"), false)] else []
  }

  /** Appends the Extra Data field when there is extra data, and returns the
      order in which its entries were rendered. */
  method AddExtraData(attach: Attachment, extra: map<string, string>) returns (keys: seq<string>)
    modifies attach
    ensures IsKeyOrder(keys, extra)
    ensures attach.fields == old(attach.fields) + ExtraDataFields(extra, keys)
    ensures attach.color == old(attach.color) && attach.title == old(attach.title)
  {
    keys := [];
    if |extra| > 0 {
      var lines;
      keys, lines := ExtraDataLines(extra);
      attach.AddField(Field("Extra Data", Join(lines, "\n"), false));
    }
  }
}
