/** The RDS cluster failover relay: a failover start posts a red Mattermost
    message and opens an OpsGenie alert, a completed failover posts a green
    one and closes the alerts tagged with its message; every other RDS event
    is ignored. */
module RdsClusterEvents {
  import opened Common
  import opened Notification

  const StartedPrefix: string := "Started cross AZ failover"
  const CompletedPrefix: string := "Completed failover"
  const CreatedTags: seq<string> := ["AWS", "RDS"]

  /** The fields of the RDS event notification the relay reads. */
  datatype ClusterEvent = ClusterEvent(sourceID: string, eventMessage: string)

  /** An SNS record: its event source, and its message decoded, or None when
      the message does not decode. */
  datatype Record = Record(eventSource: string, notification: Option<ClusterEvent>)

  /** OpsGenie as the relay sees it: the error of building a client, the
      answer to the alert listing (the ids, in order), and the alerts whose
      closing fails. Creating an alert may fail too, but its result is dropped. */
  datatype OpsGenie = OpsGenie(clientError: Option<string>, listed: Result<seq<string>>, closeErrors: set<string>)

  datatype Effect =
    | PostWebhook(url: string, message: SlashResponse)
    | CreateAlert(alert: OpsGenieAlert)
    | ListAlerts(query: string)
    | CloseAlert(id: string)

  datatype Kind = FailoverStarted | FailoverCompleted | Other

  /** The dispatch on the event message, the start prefix being checked first. */
  function KindOf(e: ClusterEvent): (k: Kind)
    ensures k == FailoverStarted <==> HasPrefix(e.eventMessage, StartedPrefix)
    ensures k == FailoverCompleted <==> !HasPrefix(e.eventMessage, StartedPrefix) && HasPrefix(e.eventMessage, CompletedPrefix)
  {
    if HasPrefix(e.eventMessage, StartedPrefix) then FailoverStarted
    else if HasPrefix(e.eventMessage, CompletedPrefix) then FailoverCompleted
    else Other
  }

  /** The two prefixes exclude each other, so the order of the tests never
      decides between them. */
  lemma PrefixesDisjoint(s: string)
    ensures !(HasPrefix(s, StartedPrefix) && HasPrefix(s, CompletedPrefix))
  {
    if HasPrefix(s, StartedPrefix) {
      assert s[0] == s[..|StartedPrefix|][0] == 'S';
      assert s[..|CompletedPrefix|][0] != CompletedPrefix[0];
    }
  }

  function FailoverAttachment(color: string, e: ClusterEvent): AttachmentValue
  {
    AttachmentValue(color, None,
      [Field("RDS DB Cluster Failover", "", false), Field("Cluster", e.sourceID, true),
       Field("Message", e.eventMessage, true)])
  }

  function MattermostEffects(env: map<string, string>, source: string, color: string, e: ClusterEvent): seq<Effect>
  {
    var hook := Lookup(env, "MATTERMOST_HOOK");
    if hook != "" then [PostWebhook(hook, SlashResponse(source, AwsIcon, [FailoverAttachment(color, e)]))] else []
  }

  /** sendMattermostNotification */
  method SendMattermostNotification(env: map<string, string>, source: string, color: string, e: ClusterEvent)
    returns (effects: seq<Effect>)
    ensures effects == MattermostEffects(env, source, color, e)
  {
    var attach := new Attachment(color);
    attach.AddField(Field("RDS DB Cluster Failover", "", false));
    attach.AddField(Field("Cluster", e.sourceID, true));
    attach.AddField(Field("Message", e.eventMessage, true));
    var a := attach.Value();
    assert a == FailoverAttachment(color, e);
    var payload := SlashResponse(source, AwsIcon, [a]);
    effects := [];
    if Lookup(env, "MATTERMOST_HOOK") != "" {
      effects := [PostWebhook(Lookup(env, "MATTERMOST_HOOK"), payload)];
    }
  }

  function FailoverAlert(env: map<string, string>, e: ClusterEvent): OpsGenieAlert
  {
    OpsGenieAlert(e.eventMessage, e.eventMessage, [Lookup(env, "OPSGENIE_SCHEDULER_TEAM")], CreatedTags,
                  map["Cluster" := e.sourceID], P1)
  }

  function CreateEffects(env: map<string, string>, e: ClusterEvent, og: OpsGenie): seq<Effect>
  {
    if Lookup(env, "OPSGENIE_APIKEY") == "" || Lookup(env, "OPSGENIE_SCHEDULER_TEAM") == "" then []
    else if og.clientError.Some? then []
    else [CreateAlert(FailoverAlert(env, e))]
  }

  /** sendOpsGenieNotification */
  method SendOpsGenieNotification(env: map<string, string>, e: ClusterEvent, og: OpsGenie) returns (effects: seq<Effect>)
    ensures effects == CreateEffects(env, e, og)
  {
    if Lookup(env, "OPSGENIE_APIKEY") == "" || Lookup(env, "OPSGENIE_SCHEDULER_TEAM") == "" {
      return [];
    }
    if og.clientError.Some? {
      return [];
    }
    var request := OpsGenieAlert(e.eventMessage, e.eventMessage, [Lookup(env, "OPSGENIE_SCHEDULER_TEAM")],
                                 ["AWS", "RDS"], map["Cluster" := e.sourceID], P1);
    effects := [CreateAlert(request)];
  }

  /** The closes the loop requests: the listed alerts in order, up to and
      including the first whose closing fails. */
  function CloseCalls(ids: seq<string>, closeErrors: set<string>): seq<Effect>
  {
    if |ids| == 0 then []
    else [CloseAlert(ids[0])] + (if ids[0] in closeErrors then [] else CloseCalls(ids[1..], closeErrors))
  }

  function TagQuery(e: ClusterEvent): string
  {
    "tag:" + e.eventMessage
  }

  function CloseEffects(env: map<string, string>, e: ClusterEvent, og: OpsGenie): seq<Effect>
  {
    if Lookup(env, "OPSGENIE_APIKEY") == "" || og.clientError.Some? then []
    else [ListAlerts(TagQuery(e))] + (if og.listed.Err? then [] else CloseCalls(og.listed.value, og.closeErrors))
  }

  /** closeOpsGenieAlert */
  method CloseOpsGenieAlert(env: map<string, string>, e: ClusterEvent, og: OpsGenie) returns (effects: seq<Effect>)
    ensures effects == CloseEffects(env, e, og)
  {
    if Lookup(env, "OPSGENIE_APIKEY") == "" {
      return [];
    }
    if og.clientError.Some? {
      return [];
    }
    effects := [ListAlerts("tag:" + e.eventMessage)];
    if og.listed.Err? {
      assert effects + [] == effects;
      return;
    }
    var closes := CloseAlerts(og.listed.value, og.closeErrors);
    effects := effects + closes;
  }

  /** The loop of closeOpsGenieAlert over the listed alerts. */
  method CloseAlerts(alerts: seq<string>, closeErrors: set<string>) returns (effects: seq<Effect>)
    ensures effects == CloseCalls(alerts, closeErrors)
  {
    effects := [];
    for i := 0 to |alerts|
      invariant effects + CloseCalls(alerts[i..], closeErrors) == CloseCalls(alerts, closeErrors)
    {
      CloseStep(alerts, closeErrors, i, effects);
      effects := effects + [CloseAlert(alerts[i])];
      if alerts[i] in closeErrors {
        return;
      }
    }
    assert alerts[|alerts|..] == [];
    assert effects + [] == effects;
  }

  /** One step of the closing loop. */
  lemma CloseStep(alerts: seq<string>, closeErrors: set<string>, i: int, done: seq<Effect>)
    requires 0 <= i < |alerts|
    ensures alerts[i] in closeErrors ==> done + CloseCalls(alerts[i..], closeErrors) == done + [CloseAlert(alerts[i])]
    ensures alerts[i] !in closeErrors ==>
      done + CloseCalls(alerts[i..], closeErrors) == (done + [CloseAlert(alerts[i])]) + CloseCalls(alerts[i + 1..], closeErrors)
  {
    assert alerts[i..][1..] == alerts[i + 1..];
    assert [CloseAlert(alerts[i])] + [] == [CloseAlert(alerts[i])];
  }

  /** Closing visits the listed alerts in order and stops right after the
      first failure: the calls are a prefix of the listing, all of it when no
      close fails. */
  lemma {:induction false} CloseCallsPrefix(ids: seq<string>, closeErrors: set<string>)
    ensures var c := CloseCalls(ids, closeErrors);
      |c| <= |ids| && (forall i :: 0 <= i < |c| ==> c[i] == CloseAlert(ids[i]))
      && (forall i :: 0 <= i < |c| - 1 ==> ids[i] !in closeErrors)
      && ((forall i :: 0 <= i < |ids| ==> ids[i] !in closeErrors) ==> |c| == |ids|)
    decreases |ids|
  {
    if |ids| > 0 {
      CloseCallsPrefix(ids[1..], closeErrors);
      var c := CloseCalls(ids, closeErrors);
      var rest := CloseCalls(ids[1..], closeErrors);
      if ids[0] !in closeErrors {
        forall i | 1 <= i < |c|
          ensures c[i] == CloseAlert(ids[i])
        {
          assert c[i] == rest[i - 1] && ids[1..][i - 1] == ids[i];
        }
        forall i | 1 <= i < |c| - 1
          ensures ids[i] !in closeErrors
        {
          assert ids[1..][i - 1] == ids[i];
        }
        if forall i :: 0 <= i < |ids| ==> ids[i] !in closeErrors {
          assert forall i :: 0 <= i < |ids[1..]| ==> ids[1..][i] == ids[i + 1];
        }
      }
    }
  }

  /** The close path asks for alerts tagged with the completion message,
      while the create path tags its alerts AWS and RDS only: no alert this
      relay opens carries the tag that the close path queries. */
  lemma CloseQueryMissesCreatedTags(e: ClusterEvent)
    requires KindOf(e) == FailoverCompleted
    ensures TagQuery(e)[|"tag:"|..] !in CreatedTags
  {
    assert TagQuery(e)[|"tag:"|..] == e.eventMessage;
    assert |e.eventMessage| >= |CompletedPrefix|;
  }

  predicate PagerEnabled(env: map<string, string>)
  {
    Lookup(env, "ENVIRONMENT") != "" && Lookup(env, "ENVIRONMENT") != "test"
  }

  function RecordEffects(env: map<string, string>, source: string, e: ClusterEvent, og: OpsGenie): seq<Effect>
  {
    match KindOf(e)
    case FailoverStarted =>
      MattermostEffects(env, source, Red, e) + (if PagerEnabled(env) then CreateEffects(env, e, og) else [])
    case FailoverCompleted =>
      MattermostEffects(env, source, Green, e) + (if PagerEnabled(env) then CloseEffects(env, e, og) else [])
    case Other => []
  }

  /** The body of the handler's loop for a record that decodes. */
  method ProcessRecord(env: map<string, string>, source: string, e: ClusterEvent, og: OpsGenie)
    returns (effects: seq<Effect>)
    ensures effects == RecordEffects(env, source, e, og)
  {
    effects := [];
    if HasPrefix(e.eventMessage, "Started cross AZ failover") {
      effects := SendMattermostNotification(env, source, "#FF0000", e);
      if Lookup(env, "ENVIRONMENT") != "" && Lookup(env, "ENVIRONMENT") != "test" {
        var create := SendOpsGenieNotification(env, e, og);
        effects := effects + create;
      } else {
        assert effects + [] == effects;
      }
    } else if HasPrefix(e.eventMessage, "Completed failover") {
      effects := SendMattermostNotification(env, source, "#006400", e);
      if Lookup(env, "ENVIRONMENT") != "" && Lookup(env, "ENVIRONMENT") != "test" {
        var close := CloseOpsGenieAlert(env, e, og);
        effects := effects + close;
      } else {
        assert effects + [] == effects;
      }
    }
  }

  function BatchEffects(env: map<string, string>, records: seq<Record>, og: OpsGenie): seq<Effect>
  {
    if |records| == 0 || records[0].notification.None? then []
    else
      RecordEffects(env, records[0].eventSource, records[0].notification.value, og)
      + BatchEffects(env, records[1..], og)
  }

  method Handler(env: map<string, string>, records: seq<Record>, og: OpsGenie) returns (effects: seq<Effect>)
    ensures effects == BatchEffects(env, records, og)
  {
    effects := [];
    for i := 0 to |records|
      invariant effects + BatchEffects(env, records[i..], og) == BatchEffects(env, records, og)
    {
      assert records[i..][1..] == records[i + 1..];
      var record := records[i];
      if record.notification.None? {
        assert effects + [] == effects;
        return;
      }
      var recordEffects := ProcessRecord(env, record.eventSource, record.notification.value, og);
      effects := effects + recordEffects;
    }
    assert records[|records|..] == [];
    assert effects + [] == effects;
  }

  /** A record that does not decode ends the batch. */
  lemma {:induction false} DecodeErrorStopsBatch(env: map<string, string>, records: seq<Record>, og: OpsGenie, i: int)
    requires 0 <= i < |records| && records[i].notification.None?
    ensures BatchEffects(env, records, og) == BatchEffects(env, records[..i], og)
    decreases i
  {
    if i > 0 && records[0].notification.Some? {
      assert records[..i][1..] == records[1..][..i - 1];
      DecodeErrorStopsBatch(env, records[1..], og, i - 1);
    } else if i > 0 {
      assert records[..i][0] == records[0];
    }
  }

  /** A start is red and may create, a completion is green and may list and
      close, anything else does nothing; OpsGenie is only called outside test
      environments. */
  lemma Routing(env: map<string, string>, source: string, e: ClusterEvent, og: OpsGenie)
    ensures var r := RecordEffects(env, source, e, og);
      var mm := if Lookup(env, "MATTERMOST_HOOK") != "" then 1 else 0;
      (KindOf(e) == Other ==> r == [])
      && (KindOf(e) == FailoverStarted ==>
            (mm == 1 ==> r[0].message.attachments[0].color == Red)
            && forall i :: mm <= i < |r| ==> r[i].CreateAlert?)
      && (KindOf(e) == FailoverCompleted ==>
            (mm == 1 ==> r[0].message.attachments[0].color == Green)
            && forall i :: mm <= i < |r| ==> r[i].ListAlerts? || r[i].CloseAlert?)
      && (!PagerEnabled(env) ==> |r| == (if KindOf(e) == Other then 0 else mm))
  {
    if KindOf(e) == FailoverCompleted && PagerEnabled(env) && Lookup(env, "OPSGENIE_APIKEY") != ""
       && og.clientError == None && og.listed.Ok? {
      CloseCallsPrefix(og.listed.value, og.closeErrors);
    }
  }
}
