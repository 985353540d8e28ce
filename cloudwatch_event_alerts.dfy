/** The CloudWatch event relay: every CloudWatch event delivered through SNS
    is posted to Mattermost in red and, outside test environments, raised on
    PagerDuty. */
module CloudwatchEventAlerts {
  import opened Common
  import opened Notification

  const AlertTitle: string := "Cloudwatch Event Alert"
  const PagerSummary: string := "New Cloudwatch Event alert was generated"

  /** The event carried by an SNS message. `detailJson` is the JSON encoding
      of its detail object, which the relay posts verbatim. */
  datatype SnsMessage = SnsMessage(typ: string, account: string, resources: seq<string>, detailJson: string)

  /** An SNS record: its event source, and its message decoded, or None when
      it does not decode. */
  datatype Record = Record(eventSource: string, message: Option<SnsMessage>)

  datatype Effect = PostWebhook(url: string, message: SlashResponse) | TriggerPagerDuty(event: PagerDutyEvent)

  function EventAttachment(color: string, m: SnsMessage): (a: AttachmentValue)
    ensures a.color == color && a.title == None && |a.fields| == 5
  {
    AttachmentValue(color, None,
      [Field(AlertTitle, "", false), Field("Type", m.typ, true), Field("Account", m.account, true),
       Field("Resources", Join(m.resources, ","), true), Field("Detail", m.detailJson, true)])
  }

  function MattermostEffects(env: map<string, string>, source: string, color: string, m: SnsMessage): seq<Effect>
  {
    var hook := Lookup(env, "MATTERMOST_HOOK");
    if hook != "" then [PostWebhook(hook, SlashResponse(source, AwsIcon, [EventAttachment(color, m)]))] else []
  }

  /** sendMattermostNotification */
  method SendMattermostNotification(env: map<string, string>, source: string, color: string, m: SnsMessage)
    returns (effects: seq<Effect>)
    ensures effects == MattermostEffects(env, source, color, m)
  {
    var attach := new Attachment(color);
    attach.AddField(Field("Cloudwatch Event Alert", "", false));
    attach.AddField(Field("Type", m.typ, true));
    attach.AddField(Field("Account", m.account, true));
    attach.AddField(Field("Resources", Join(m.resources, ","), true));
    attach.AddField(Field("Detail", m.detailJson, true));
    var a := attach.Value();
    assert a == EventAttachment(color, m);
    var payload := SlashResponse(source, AwsIcon, [a]);
    effects := [];
    if Lookup(env, "MATTERMOST_HOOK") != "" {
      effects := [PostWebhook(Lookup(env, "MATTERMOST_HOOK"), payload)];
    }
  }

  function DetailText(m: SnsMessage): string
  {
    "AWS Account: " + m.account + "\nResources: " + Join(m.resources, ",") + "\nDetail:\n" + m.detailJson
  }

  function PagerDutyEffects(env: map<string, string>, m: SnsMessage): seq<Effect>
  {
    var key := Lookup(env, "PAGERDUTY_INTEGRATION_KEY");
    if key == "" then [] else [TriggerPagerDuty(TriggerEvent(key, PagerSummary, map["Message" := DetailText(m)]))]
  }

  /** sendPagerDutyNotification; its failure is only logged. */
  method SendPagerDutyNotification(env: map<string, string>, m: SnsMessage) returns (effects: seq<Effect>)
    ensures effects == PagerDutyEffects(env, m)
  {
    var integrationKey := Lookup(env, "PAGERDUTY_INTEGRATION_KEY");
    if integrationKey == "" {
      return [];
    }
    var detailString := "AWS Account: " + m.account + "\nResources: " + Join(m.resources, ",") + "\nDetail:\n" + m.detailJson;
    var event := PagerDutyEvent(integrationKey, "trigger", "New Cloudwatch Event alert was generated", "Alarm System",
                                "critical", map["Message" := detailString]);
    effects := [TriggerPagerDuty(event)];
  }

  predicate PagerEnabled(env: map<string, string>)
  {
    Lookup(env, "ENVIRONMENT") != "" && Lookup(env, "ENVIRONMENT") != "test"
  }

  function RecordEffects(env: map<string, string>, source: string, m: SnsMessage): seq<Effect>
  {
    MattermostEffects(env, source, Red, m) + (if PagerEnabled(env) then PagerDutyEffects(env, m) else [])
  }

  /** The body of the handler's loop for a record that decodes. */
  method ProcessRecord(env: map<string, string>, source: string, m: SnsMessage) returns (effects: seq<Effect>)
    ensures effects == RecordEffects(env, source, m)
  {
    effects := SendMattermostNotification(env, source, "#FF0000", m);
    if Lookup(env, "ENVIRONMENT") != "" && Lookup(env, "ENVIRONMENT") != "test" {
      var page := SendPagerDutyNotification(env, m);
      effects := effects + page;
    } else {
      assert effects + [] == effects;
    }
  }

  function BatchEffects(env: map<string, string>, records: seq<Record>): seq<Effect>
  {
    if |records| == 0 || records[0].message.None? then []
    else RecordEffects(env, records[0].eventSource, records[0].message.value) + BatchEffects(env, records[1..])
  }

  method Handler(env: map<string, string>, records: seq<Record>) returns (effects: seq<Effect>)
    ensures effects == BatchEffects(env, records)
  {
    effects := [];
    for i := 0 to |records|
      invariant effects + BatchEffects(env, records[i..]) == BatchEffects(env, records)
    {
      var record := records[i];
      if record.message.None? {
        assert BatchEffects(env, records[i..]) == [];
        assert effects + [] == effects;
        return;
      }
      var recordEffects := ProcessRecord(env, record.eventSource, record.message.value);
      BatchStep(env, records, i, effects);
      effects := effects + recordEffects;
    }
    assert records[|records|..] == [];
    assert effects + [] == effects;
  }

  /** One step of the handler's loop over a record that decodes. */
  lemma BatchStep(env: map<string, string>, records: seq<Record>, i: int, done: seq<Effect>)
    requires 0 <= i < |records| && records[i].message.Some?
    ensures done + BatchEffects(env, records[i..])
      == (done + RecordEffects(env, records[i].eventSource, records[i].message.value)) + BatchEffects(env, records[i + 1..])
  {
    assert records[i..][1..] == records[i + 1..];
  }

  /** The number of records handled: those before the first that does not
      decode. */
  function Decoded(records: seq<Record>): (n: nat)
    ensures n <= |records|
    ensures forall i :: 0 <= i < n ==> records[i].message.Some?
    ensures n < |records| ==> records[n].message.None?
  {
    if |records| == 0 || records[0].message.None? then 0
    else
      assert forall i :: 1 <= i < |records| ==> records[i] == records[1..][i - 1];
      1 + Decoded(records[1..])
  }

  function CountPosts(effects: seq<Effect>): nat
  {
    if |effects| == 0 then 0 else (if effects[0].PostWebhook? then 1 else 0) + CountPosts(effects[1..])
  }

  lemma {:induction false} CountPostsAppend(a: seq<Effect>, b: seq<Effect>)
    ensures CountPosts(a + b) == CountPosts(a) + CountPosts(b)
    decreases |a|
  {
    if |a| > 0 {
      assert (a + b)[1..] == a[1..] + b;
      assert (a + b)[0] == a[0];
      CountPostsAppend(a[1..], b);
    } else {
      assert a + b == b;
    }
  }

  /** What any effect of the relay looks like: a red post of the five
      fields to MATTERMOST_HOOK, or, outside test environments and with an
      integration key, a PagerDuty trigger routed by that key. */
  predicate Expected(env: map<string, string>, x: Effect)
  {
    match x
    case PostWebhook(url, msg) =>
      url == Lookup(env, "MATTERMOST_HOOK") && |msg.attachments| == 1 && msg.attachments[0].color == Red
      && |msg.attachments[0].fields| == 5 && msg.attachments[0].fields[0].title == AlertTitle
    case TriggerPagerDuty(event) =>
      PagerEnabled(env) && Lookup(env, "PAGERDUTY_INTEGRATION_KEY") != ""
      && event.routingKey == Lookup(env, "PAGERDUTY_INTEGRATION_KEY") && event.summary == PagerSummary
  }

  /** Every effect of a batch is as expected. */
  lemma {:induction false} BatchExpected(env: map<string, string>, records: seq<Record>)
    ensures forall x :: x in BatchEffects(env, records) ==> Expected(env, x)
    decreases |records|
  {
    if |records| > 0 && records[0].message.Some? {
      var m := records[0].message.value;
      BatchExpected(env, records[1..]);
      var mm := MattermostEffects(env, records[0].eventSource, Red, m);
      var pd := if PagerEnabled(env) then PagerDutyEffects(env, m) else [];
      assert BatchEffects(env, records) == (mm + pd) + BatchEffects(env, records[1..]);
    }
  }

  /** Each record handled posts exactly one message when the hook is set and
      none otherwise. */
  lemma {:induction false} BatchPostCount(env: map<string, string>, records: seq<Record>)
    ensures CountPosts(BatchEffects(env, records)) == (if Lookup(env, "MATTERMOST_HOOK") != "" then Decoded(records) else 0)
    decreases |records|
  {
    if |records| > 0 && records[0].message.Some? {
      var m := records[0].message.value;
      var rest := BatchEffects(env, records[1..]);
      BatchPostCount(env, records[1..]);
      var mm := MattermostEffects(env, records[0].eventSource, Red, m);
      var pd := if PagerEnabled(env) then PagerDutyEffects(env, m) else [];
      assert BatchEffects(env, records) == (mm + pd) + rest;
      CountPostsAppend(mm + pd, rest);
      CountPostsAppend(mm, pd);
      assert CountPosts(pd) == 0;
    }
  }

  /** A record that does not decode ends the batch. */
  lemma {:induction false} DecodeErrorStopsBatch(env: map<string, string>, records: seq<Record>, i: int)
    requires 0 <= i < |records| && records[i].message.None?
    ensures BatchEffects(env, records) == BatchEffects(env, records[..i])
    decreases i
  {
    if i > 0 && records[0].message.Some? {
      assert records[..i][1..] == records[1..][..i - 1];
      DecodeErrorStopsBatch(env, records[1..], i - 1);
    } else if i > 0 {
      assert records[..i][0] == records[0];
    }
  }

  /** PagerDuty is triggered for a record exactly when the environment is
      set, is not "test", and an integration key is configured. */
  lemma PagerGating(env: map<string, string>, source: string, m: SnsMessage)
    ensures (exists x :: x in RecordEffects(env, source, m) && x.TriggerPagerDuty?) <==>
      (Lookup(env, "ENVIRONMENT") != "" && Lookup(env, "ENVIRONMENT") != "test" && Lookup(env, "PAGERDUTY_INTEGRATION_KEY") != "")
  {
    var r := RecordEffects(env, source, m);
    if PagerEnabled(env) && Lookup(env, "PAGERDUTY_INTEGRATION_KEY") != "" {
      assert r[|r| - 1].TriggerPagerDuty?;
    }
  }
}
