/** The load-balancer alarm relay: for every CloudWatch alarm notification
    delivered by SNS it posts a Mattermost message and, outside test
    environments, triggers a PagerDuty event for an alarm or resolves the
    matching PagerDuty incidents when the alarm returns to OK. */
module AlertElbCloudwatchAlarm {
  import opened Common
  import opened Notification

  const StateOK: string := "OK"
  const PageLimit: nat := 25

  datatype Dimension = Dimension(name: string, value: string)

  /** The fields of the alarm notification the relay reads. */
  datatype AlarmNotification = AlarmNotification(
    alarmName: string, alarmDescription: string, awsAccountID: string, newStateValue: string,
    newStateReason: string, region: string, oldStateValue: string,
    metricName: string, namespace: string, dimensions: seq<Dimension>)

  /** An SNS record: its event source, and its message decoded, or None when
      the message does not decode. */
  datatype Record = Record(eventSource: string, notification: Option<AlarmNotification>)

  datatype Incident = Incident(id: string, description: string)

  /** PagerDuty as the relay sees it: the incidents it lists, in order, the
      page offsets at which listing fails, and the incidents whose resolution
      fails. */
  datatype PagerDuty = PagerDuty(incidents: seq<Incident>, listErrors: set<int>, resolveErrors: set<string>)

  datatype Effect =
    | PostWebhook(url: string, message: SlashResponse)
    | TriggerPagerDuty(event: PagerDutyEvent)
    | ListIncidents(offset: int, limit: int)
    | ResolveIncident(from: string, id: string)

  // ------------------------------------------------------------ Mattermost

  function DimensionLine(d: Dimension): string
  {
    d.name + ": " + d.value
  }

  /** The "Name: Value" lines of the dimensions, in trigger order. */
  function DimensionLines(dims: seq<Dimension>): (lines: seq<string>)
    ensures |lines| == |dims|
    ensures forall i :: 0 <= i < |dims| ==> lines[i] == DimensionLine(dims[i])
  {
    if |dims| == 0 then [] else [DimensionLine(dims[0])] + DimensionLines(dims[1..])
  }

  /** The dimensions loop: one line appended per dimension. */
  method RenderDimensions(dims: seq<Dimension>) returns (text: string)
    ensures text == Join(DimensionLines(dims), "\n")
  {
    var dimensions: seq<string> := [];
    for i := 0 to |dims|
      invariant dimensions == DimensionLines(dims[..i])
    {
      assert dims[..i + 1] == dims[..i] + [dims[i]];
      DimensionLinesAppend(dims[..i], [dims[i]]);
      dimensions := dimensions + [DimensionLine(dims[i])];
    }
    assert dims[..|dims|] == dims;
    text := Join(dimensions, "\n");
  }

  lemma {:induction false} DimensionLinesAppend(a: seq<Dimension>, b: seq<Dimension>)
    ensures DimensionLines(a + b) == DimensionLines(a) + DimensionLines(b)
    decreases |a|
  {
    if |a| == 0 {
      assert a + b == b;
    } else {
      assert (a + b)[1..] == a[1..] + b;
      DimensionLinesAppend(a[1..], b);
    }
  }

  function AlarmColor(n: AlarmNotification): string
  {
    if n.newStateValue == StateOK then Green else Red
  }

  /** The nine fields that precede Dimensions. */
  function AlarmFields(n: AlarmNotification): seq<Field>
  {
    [Field("AlarmName", n.alarmName, true), Field("AlarmDescription", n.alarmDescription, true),
     Field("AWS Account", n.awsAccountID, true), Field("Region", n.region, true),
     Field("New State", n.newStateValue, true), Field("Old State", n.oldStateValue, true),
     Field("New State Reason", n.newStateReason, false), Field("MetricName", n.metricName, true),
     Field("Namespace", n.namespace, true)]
  }

  function AlarmAttachment(n: AlarmNotification): AttachmentValue
  {
    AttachmentValue(AlarmColor(n), None,
      AlarmFields(n) + [Field("Dimensions", Join(DimensionLines(n.dimensions), "\n"), false)])
  }

  /** The attachment sendMattermostNotification builds, field by field. */
  method BuildAlarmAttachment(n: AlarmNotification) returns (a: AttachmentValue)
    ensures a == AlarmAttachment(n)
  {
    var attach := new Attachment(Red);
    if n.newStateValue == StateOK {
      attach.color := Green;
    }
    ghost var color := attach.color;
    assert color == AlarmColor(n);
    AddAlarmFields(attach, n);
    var dimensions := RenderDimensions(n.dimensions);
    attach.AddField(Field("Dimensions", dimensions, false));
    a := attach.Value();
  }

  /** The first nine AddField calls of sendMattermostNotification. */
  method AddAlarmFields(attach: Attachment, n: AlarmNotification)
    modifies attach
    ensures attach.fields == old(attach.fields) + AlarmFields(n)
    ensures attach.color == old(attach.color) && attach.title == old(attach.title)
  {
    ghost var start := attach.fields;
    attach.AddField(Field("AlarmName", n.alarmName, true));
    attach.AddField(Field("AlarmDescription", n.alarmDescription, true));
    attach.AddField(Field("AWS Account", n.awsAccountID, true));
    attach.AddField(Field("Region", n.region, true));
    attach.AddField(Field("New State", n.newStateValue, true));
    ghost var half := attach.fields;
    assert half == start + AlarmFields(n)[..5];
    attach.AddField(Field("Old State", n.oldStateValue, true));
    attach.AddField(Field("New State Reason", n.newStateReason, false));
    attach.AddField(Field("MetricName", n.metricName, true));
    attach.AddField(Field("Namespace", n.namespace, true));
    assert attach.fields == half + AlarmFields(n)[5..];
    assert AlarmFields(n) == AlarmFields(n)[..5] + AlarmFields(n)[5..];
  }

  /** Green exactly for the OK state, red for every other; the Dimensions
      field comes last and holds one line per dimension, in order. */
  lemma AlarmAttachmentShape(n: AlarmNotification)
    ensures var a := AlarmAttachment(n);
      (a.color == Green <==> n.newStateValue == StateOK) && (a.color == Red <==> n.newStateValue != StateOK)
      && |a.fields| == 10 && a.fields[9].title == "Dimensions"
      && (forall i :: 0 <= i < |n.dimensions| ==>
            Contains(a.fields[9].value, n.dimensions[i].name + ": " + n.dimensions[i].value))
  {
    var a := AlarmAttachment(n);
    forall i | 0 <= i < |n.dimensions|
      ensures Contains(a.fields[9].value, n.dimensions[i].name + ": " + n.dimensions[i].value)
    {
      JoinContainsPart(DimensionLines(n.dimensions), "\n", i);
    }
  }

  function MattermostEffects(env: map<string, string>, source: string, n: AlarmNotification): seq<Effect>
  {
    var hook := Lookup(env, "MATTERMOST_HOOK");
    if hook != "" then [PostWebhook(hook, SlashResponse(source, AwsIcon, [AlarmAttachment(n)]))] else []
  }

  method SendMattermostNotification(env: map<string, string>, source: string, n: AlarmNotification)
    returns (effects: seq<Effect>)
    ensures effects == MattermostEffects(env, source, n)
  {
    var a := BuildAlarmAttachment(n);
    var payload := SlashResponse(source, AwsIcon, [a]);
    effects := [];
    if Lookup(env, "MATTERMOST_HOOK") != "" {
      effects := [PostWebhook(Lookup(env, "MATTERMOST_HOOK"), payload)];
    }
  }

  // ------------------------------------------------------------- PagerDuty

  /** The trigger summary, and the description an incident must have to be
      resolved for this alarm. */
  function Summary(n: AlarmNotification): string
  {
    n.alarmName + " - " + n.alarmDescription
  }

  function DetailText(n: AlarmNotification): string
  {
    "AWS Account: " + n.awsAccountID + "\nRegion: " + n.region + "\nState: " + n.newStateValue
    + "\nMetricName: " + n.metricName + "\nNamespace: " + n.namespace
    + "\nDimensions:\n" + Join(DimensionLines(n.dimensions), "\n")
  }

  function TriggerEffects(env: map<string, string>, n: AlarmNotification): seq<Effect>
  {
    var key := Lookup(env, "PAGERDUTY_INTEGRATION_KEY");
    if key == "" then [] else [TriggerPagerDuty(TriggerEvent(key, Summary(n), map["Message" := DetailText(n)]))]
  }

  /** sendPagerDutyNotification; a failure of the event is only logged. */
  method SendPagerDutyNotification(env: map<string, string>, n: AlarmNotification) returns (effects: seq<Effect>)
    ensures effects == TriggerEffects(env, n)
  {
    var integrationKey := Lookup(env, "PAGERDUTY_INTEGRATION_KEY");
    if integrationKey == "" {
      return [];
    }
    var dimensions := RenderDimensions(n.dimensions);
    var detailString := "AWS Account: " + n.awsAccountID + "\nRegion: " + n.region + "\nState: " + n.newStateValue
      + "\nMetricName: " + n.metricName + "\nNamespace: " + n.namespace + "\nDimensions:\n" + dimensions;
    var event := TriggerEvent(integrationKey, n.alarmName + " - " + n.alarmDescription, map["Message" := detailString]);
    effects := [TriggerPagerDuty(event)];
  }

  /** The page of at most 25 incidents that starts at `offset`. */
  function Page(all: seq<Incident>, offset: nat): seq<Incident>
  {
    if offset >= |all| then [] else all[offset..if offset + PageLimit <= |all| then offset + PageLimit else |all|]
  }

  /** The incidents the paging loop collects from page `n` on: it stops at a
      failing page, keeping the earlier ones, and after the page that reaches
      the reported total. */
  function Collected(pd: PagerDuty, n: nat): seq<Incident>
    decreases |pd.incidents| - n * PageLimit
  {
    if n * PageLimit in pd.listErrors then []
    else if n * PageLimit + PageLimit >= |pd.incidents| then Page(pd.incidents, n * PageLimit)
    else Page(pd.incidents, n * PageLimit) + Collected(pd, n + 1)
  }

  /** The list requests the paging loop makes from page `n` on. */
  function ListCalls(pd: PagerDuty, n: nat): seq<Effect>
    decreases |pd.incidents| - n * PageLimit
  {
    [ListIncidents(n * PageLimit, PageLimit)]
    + if n * PageLimit in pd.listErrors || n * PageLimit + PageLimit >= |pd.incidents| then []
      else ListCalls(pd, n + 1)
  }

  /** The paging loop of closePagerDutyIncidents. */
  method ListAllIncidents(pd: PagerDuty) returns (incidents: seq<Incident>, effects: seq<Effect>)
    ensures incidents == Collected(pd, 0)
    ensures effects == ListCalls(pd, 0)
  {
    var limit := PageLimit;
    var offset := 0;
    ghost var n: nat := 0;
    incidents := [];
    effects := [];
    while true
      invariant offset == n * PageLimit && offset <= |pd.incidents| + PageLimit
      invariant incidents + Collected(pd, n) == Collected(pd, 0)
      invariant effects + ListCalls(pd, n) == ListCalls(pd, 0)
      decreases |pd.incidents| - offset
    {
      ghost var before := effects;
      PagingStep(pd, n);
      effects := effects + [ListIncidents(offset, limit)];
      if offset in pd.listErrors {
        assert incidents + [] == incidents;
        return;
      }
      var page := Page(pd.incidents, offset);
      if offset + limit >= |pd.incidents| {
        incidents := incidents + page;
        return;
      }
      assert Collected(pd, n) == page + Collected(pd, n + 1);
      assert ListCalls(pd, n) == [ListIncidents(offset, limit)] + ListCalls(pd, n + 1);
      AppendAssoc(incidents, page, Collected(pd, n + 1));
      AppendAssoc(before, [ListIncidents(offset, limit)], ListCalls(pd, n + 1));
      incidents := incidents + page;
      offset := offset + limit;
      n := n + 1;
    }
  }

  /** One page of the paging loop: a failing page ends it with nothing
      collected, the page reaching the total ends it with that page, and any
      other page is followed by the next. */
  lemma PagingStep(pd: PagerDuty, n: nat)
    ensures n * PageLimit in pd.listErrors ==>
      Collected(pd, n) == [] && ListCalls(pd, n) == [ListIncidents(n * PageLimit, PageLimit)]
    ensures n * PageLimit !in pd.listErrors && n * PageLimit + PageLimit >= |pd.incidents| ==>
      Collected(pd, n) == Page(pd.incidents, n * PageLimit) && ListCalls(pd, n) == [ListIncidents(n * PageLimit, PageLimit)]
    ensures n * PageLimit !in pd.listErrors && n * PageLimit + PageLimit < |pd.incidents| ==>
      Collected(pd, n) == Page(pd.incidents, n * PageLimit) + Collected(pd, n + 1)
      && ListCalls(pd, n) == [ListIncidents(n * PageLimit, PageLimit)] + ListCalls(pd, n + 1)
  {
    assert [ListIncidents(n * PageLimit, PageLimit)] + [] == [ListIncidents(n * PageLimit, PageLimit)];
  }

  /** With no failing page, paging from page `n` collects every incident
      from its offset on, in order. */
  lemma {:induction false} CollectedAll(pd: PagerDuty, n: nat)
    requires n * PageLimit <= |pd.incidents|
    requires forall k :: k in pd.listErrors ==> k < n * PageLimit
    ensures Collected(pd, n) == pd.incidents[n * PageLimit..]
    decreases |pd.incidents| - n * PageLimit
  {
    var o := n * PageLimit;
    if o + PageLimit < |pd.incidents| {
      CollectedAll(pd, n + 1);
      assert pd.incidents[o..] == pd.incidents[o..o + PageLimit] + pd.incidents[o + PageLimit..];
    }
  }

  /** A failing page ends the paging, and every incident before it is kept:
      from page `n`, when page `m` is the first failing one among those, the
      loop collects exactly the incidents from page `n` up to page `m`. */
  lemma {:induction false} CollectedUpToFailure(pd: PagerDuty, n: nat, m: nat)
    requires n <= m && m * PageLimit <= |pd.incidents|
    requires m * PageLimit in pd.listErrors
    requires forall j: nat :: n <= j < m ==> j * PageLimit !in pd.listErrors
    ensures Collected(pd, n) == pd.incidents[n * PageLimit..m * PageLimit]
    decreases m - n
  {
    var o := n * PageLimit;
    if n < m {
      assert o !in pd.listErrors;
      assert o + PageLimit <= m * PageLimit;
      if o + PageLimit < |pd.incidents| {
        CollectedUpToFailure(pd, n + 1, m);
        assert pd.incidents[o..m * PageLimit] == pd.incidents[o..o + PageLimit] + pd.incidents[o + PageLimit..m * PageLimit];
      } else {
        assert m == n + 1 && o + PageLimit == |pd.incidents|;
      }
    }
  }

  /** The offsets requested are 0, 25, 50, …: one per page, up to the page
      that fails or that reaches the total. */
  lemma {:induction false} ListCallsOffsets(pd: PagerDuty, n: nat)
    ensures forall i :: 0 <= i < |ListCalls(pd, n)| ==> ListCalls(pd, n)[i] == ListIncidents((n + i) * PageLimit, PageLimit)
    decreases |pd.incidents| - n * PageLimit
  {
    if !(n * PageLimit in pd.listErrors || n * PageLimit + PageLimit >= |pd.incidents|) {
      ListCallsOffsets(pd, n + 1);
      var calls := ListCalls(pd, n);
      forall i | 1 <= i < |calls|
        ensures calls[i] == ListIncidents((n + i) * PageLimit, PageLimit)
      {
        assert calls[i] == ListCalls(pd, n + 1)[i - 1];
        assert n + 1 + (i - 1) == n + i;
      }
    }
  }

  /** The resolutions the matching loop requests: every incident whose
      description is the alarm's summary, in order, up to and including the
      first whose resolution fails. */
  function ResolveCalls(incidents: seq<Incident>, summary: string, email: string, resolveErrors: set<string>): seq<Effect>
  {
    if |incidents| == 0 then []
    else if incidents[0].description != summary then ResolveCalls(incidents[1..], summary, email, resolveErrors)
    else
      [ResolveIncident(email, incidents[0].id)]
      + (if incidents[0].id in resolveErrors then [] else ResolveCalls(incidents[1..], summary, email, resolveErrors))
  }

  /** The matching loop of closePagerDutyIncidents. */
  method ResolveMatching(incidents: seq<Incident>, summary: string, email: string, resolveErrors: set<string>)
    returns (effects: seq<Effect>)
    ensures effects == ResolveCalls(incidents, summary, email, resolveErrors)
  {
    effects := [];
    for i := 0 to |incidents|
      invariant effects + ResolveCalls(incidents[i..], summary, email, resolveErrors)
        == ResolveCalls(incidents, summary, email, resolveErrors)
    {
      assert incidents[i..][1..] == incidents[i + 1..];
      var incident := incidents[i];
      if incident.description == summary {
        effects := effects + [ResolveIncident(email, incident.id)];
        if incident.id in resolveErrors {
          assert effects == ResolveCalls(incidents, summary, email, resolveErrors);
          return;
        }
      }
    }
    assert incidents[|incidents|..] == [];
    assert effects + [] == effects;
  }

  /** Only incidents carrying the summary are resolved. */
  lemma {:induction false} ResolvedOnlyMatching(incidents: seq<Incident>, summary: string, email: string,
                                               resolveErrors: set<string>, i: int)
    requires 0 <= i < |ResolveCalls(incidents, summary, email, resolveErrors)|
    ensures var c := ResolveCalls(incidents, summary, email, resolveErrors)[i];
      c.ResolveIncident? && c.from == email
      && exists j :: 0 <= j < |incidents| && incidents[j].id == c.id && incidents[j].description == summary
    decreases |incidents|
  {
    var calls := ResolveCalls(incidents, summary, email, resolveErrors);
    var rest := ResolveCalls(incidents[1..], summary, email, resolveErrors);
    if incidents[0].description != summary {
      ResolvedOnlyMatching(incidents[1..], summary, email, resolveErrors, i);
      var j :| 0 <= j < |incidents[1..]| && incidents[1..][j].id == calls[i].id && incidents[1..][j].description == summary;
      assert incidents[j + 1] == incidents[1..][j];
    } else if i > 0 {
      assert calls[i] == rest[i - 1];
      ResolvedOnlyMatching(incidents[1..], summary, email, resolveErrors, i - 1);
      var j :| 0 <= j < |incidents[1..]| && incidents[1..][j].id == rest[i - 1].id && incidents[1..][j].description == summary;
      assert incidents[j + 1] == incidents[1..][j];
    }
  }

  /** Nothing after a failing resolution is attempted. */
  lemma {:induction false} ResolveStopsAtFailure(incidents: seq<Incident>, summary: string, email: string,
                                                resolveErrors: set<string>, i: int)
    requires 0 <= i < |incidents| && incidents[i].description == summary && incidents[i].id in resolveErrors
    ensures ResolveCalls(incidents, summary, email, resolveErrors)
         == ResolveCalls(incidents[..i + 1], summary, email, resolveErrors)
    decreases |incidents|
  {
    if i == 0 {
      assert incidents[..1][1..] == [];
    } else {
      assert incidents[..i + 1][1..] == incidents[1..][..i];
      assert incidents[..i + 1][0] == incidents[0];
      ResolveStopsAtFailure(incidents[1..], summary, email, resolveErrors, i - 1);
    }
  }

  function CloseEffects(env: map<string, string>, n: AlarmNotification, pd: PagerDuty): seq<Effect>
  {
    if Lookup(env, "PAGERDUTY_APIKEY") == "" then []
    else ListCalls(pd, 0) + ResolveCalls(Collected(pd, 0), Summary(n), Lookup(env, "EMAIL_ADDRESS"), pd.resolveErrors)
  }

  /** closePagerDutyIncidents */
  method ClosePagerDutyIncidents(env: map<string, string>, n: AlarmNotification, pd: PagerDuty)
    returns (effects: seq<Effect>)
    ensures effects == CloseEffects(env, n, pd)
  {
    var apiKey := Lookup(env, "PAGERDUTY_APIKEY");
    var email := Lookup(env, "EMAIL_ADDRESS");
    if apiKey == "" {
      return [];
    }
    var incidents, listing := ListAllIncidents(pd);
    var resolving := ResolveMatching(incidents, n.alarmName + " - " + n.alarmDescription, email, pd.resolveErrors);
    effects := listing + resolving;
  }

  // ---------------------------------------------------------------- handler

  /** Pager actions run only when ENVIRONMENT is set to something other than "test". */
  predicate PagerEnabled(env: map<string, string>)
  {
    Lookup(env, "ENVIRONMENT") != "" && Lookup(env, "ENVIRONMENT") != "test"
  }

  function RecordEffects(env: map<string, string>, source: string, n: AlarmNotification, pd: PagerDuty): seq<Effect>
  {
    MattermostEffects(env, source, n)
    + if !PagerEnabled(env) then []
      else if n.newStateValue != StateOK then TriggerEffects(env, n)
      else CloseEffects(env, n, pd)
  }

  /** The calls for a batch: record by record, stopping at the first record
      that does not decode. */
  function BatchEffects(env: map<string, string>, records: seq<Record>, pd: PagerDuty): seq<Effect>
  {
    if |records| == 0 || records[0].notification.None? then []
    else
      RecordEffects(env, records[0].eventSource, records[0].notification.value, pd)
      + BatchEffects(env, records[1..], pd)
  }

  /** The body of the handler's loop for a record that decodes. */
  method ProcessRecord(env: map<string, string>, source: string, n: AlarmNotification, pd: PagerDuty)
    returns (effects: seq<Effect>)
    ensures effects == RecordEffects(env, source, n, pd)
  {
    effects := SendMattermostNotification(env, source, n);
    if Lookup(env, "ENVIRONMENT") != "" && Lookup(env, "ENVIRONMENT") != "test" {
      var pager;
      if n.newStateValue != StateOK {
        pager := SendPagerDutyNotification(env, n);
      } else {
        pager := ClosePagerDutyIncidents(env, n, pd);
      }
      effects := effects + pager;
    } else {
      assert effects + [] == effects;
    }
  }

  method Handler(env: map<string, string>, records: seq<Record>, pd: PagerDuty) returns (effects: seq<Effect>)
    ensures effects == BatchEffects(env, records, pd)
  {
    effects := [];
    for i := 0 to |records|
      invariant effects + BatchEffects(env, records[i..], pd) == BatchEffects(env, records, pd)
    {
      var record := records[i];
      if record.notification.None? {
        assert BatchEffects(env, records[i..], pd) == [];
        assert effects + [] == effects;
        return;
      }
      var recordEffects := ProcessRecord(env, record.eventSource, record.notification.value, pd);
      BatchStep(env, records, pd, i, effects);
      effects := effects + recordEffects;
    }
    assert records[|records|..] == [];
    assert effects + [] == effects;
  }

  /** One step of the handler's loop over a record that decodes. */
  lemma BatchStep(env: map<string, string>, records: seq<Record>, pd: PagerDuty, i: int, done: seq<Effect>)
    requires 0 <= i < |records| && records[i].notification.Some?
    ensures done + BatchEffects(env, records[i..], pd)
      == (done + RecordEffects(env, records[i].eventSource, records[i].notification.value, pd))
         + BatchEffects(env, records[i + 1..], pd)
  {
    assert records[i..][1..] == records[i + 1..];
  }

  /** A record that does not decode ends the batch: nothing from it or from
      any later record is sent. */
  lemma {:induction false} DecodeErrorStopsBatch(env: map<string, string>, records: seq<Record>, pd: PagerDuty, i: int)
    requires 0 <= i < |records| && records[i].notification.None?
    ensures BatchEffects(env, records, pd) == BatchEffects(env, records[..i], pd)
    decreases i
  {
    if i > 0 && records[0].notification.Some? {
      assert records[..i][1..] == records[1..][..i - 1];
      DecodeErrorStopsBatch(env, records[1..], pd, i - 1);
    } else if i > 0 {
      assert records[..i][0] == records[0];
    }
  }

  /** Outside test environments an alarm triggers PagerDuty and never lists
      or resolves, and an OK state never triggers; in a test environment
      only Mattermost is posted to. */
  lemma PagerRouting(env: map<string, string>, source: string, n: AlarmNotification, pd: PagerDuty)
    ensures var e := RecordEffects(env, source, n, pd);
      var mm := |MattermostEffects(env, source, n)|;
      (!PagerEnabled(env) ==> forall i :: 0 <= i < |e| ==> e[i].PostWebhook?)
      && (n.newStateValue != StateOK ==> forall i :: mm <= i < |e| ==> e[i].TriggerPagerDuty?)
      && (n.newStateValue == StateOK ==> forall i :: mm <= i < |e| ==> e[i].ListIncidents? || e[i].ResolveIncident?)
      && (PagerEnabled(env) && n.newStateValue == StateOK && Lookup(env, "PAGERDUTY_APIKEY") != "" ==>
            e[mm] == ListIncidents(0, PageLimit))
  {
    var e := RecordEffects(env, source, n, pd);
    var mm := |MattermostEffects(env, source, n)|;
    if PagerEnabled(env) && n.newStateValue == StateOK && Lookup(env, "PAGERDUTY_APIKEY") != "" {
      var l := ListCalls(pd, 0);
      var r := ResolveCalls(Collected(pd, 0), Summary(n), Lookup(env, "EMAIL_ADDRESS"), pd.resolveErrors);
      forall i | 0 <= i < |l| ensures l[i].ListIncidents? {
        ListCallsOffsets(pd, 0);
        assert l[i] == ListIncidents((0 + i) * PageLimit, PageLimit);
      }
      forall i | 0 <= i < |r| ensures r[i].ResolveIncident? {
        ResolvedOnlyMatching(Collected(pd, 0), Summary(n), Lookup(env, "EMAIL_ADDRESS"), pd.resolveErrors, i);
      }
      assert e == MattermostEffects(env, source, n) + (l + r);
    }
  }
}
