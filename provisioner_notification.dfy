/** The provisioner webhook relay: an API Gateway handler that receives a
    cloud provisioner webhook payload and relays cluster and installation
    state changes to Mattermost, and failures to PagerDuty. */
module ProvisionerNotification {
  import opened Common
  import opened Notification

  const TypeCluster: string := "cluster"
  const TypeInstallation: string := "installation"

  const ClusterFailureStates: set<string> :=
    {"resize-failed", "creation-failed", "deletion-failed", "upgrade-failed", "provisioning-failed"}

  const NoCompatibleClusters: string := "creation-no-compatible-clusters"
  const InstallationFailureStates: set<string> :=
    {"creation-failed", "deletion-failed", "update-failed", NoCompatibleClusters}
  const CreationRequested: string := "creation-requested"
  const CreationInProgress: string := "creation-in-progress"
  const Stable: string := "stable"

  const InstallationColor: string := "#80B3FA"

  /** The provisioner's webhook payload. */
  datatype Payload = Payload(
    typ: string, id: string, newState: string, oldState: string, timestamp: int,
    extraData: map<string, string>)

  /** The answers of everything outside the handler: the process environment,
      the rendering of the payload's timestamp, the webhook URLs whose POST
      fails (with the error), whether PagerDuty refuses the event, and whether
      re-encoding the payload as JSON fails. */
  datatype World = World(
    env: map<string, string>, timestampText: string, webhookErrors: map<string, string>,
    pagerDutyFails: bool, toJSONFails: bool)

  datatype Effect = PostWebhook(url: string, message: SlashResponse) | TriggerPagerDuty(event: PagerDutyEvent)

  datatype Response = Response(statusCode: int, body: string)

  /** What a call that may fail returned, and the calls it made. */
  datatype Outcome = Outcome(err: Option<string>, effects: seq<Effect>)

  function PostError(w: World, url: string): Option<string>
  {
    if url in w.webhookErrors then Some(w.webhookErrors[url]) else None
  }

  /** The environment named by the payload, upper-cased. */
  function Environment(p: Payload): string
  {
    ToUpper(Lookup(p.extraData, "Environment"))
  }

  function Webhook(w: World, env: string): string
  {
    Lookup(w.env, "MATTERMOST_WEBHOOK_" + env)
  }

  function AlertWebhook(w: World, env: string): string
  {
    Lookup(w.env, "MATTERMOST_WEBHOOK_ALERT_" + env)
  }

  /** The three configuration checks both handlers make first, in this order. */
  function ConfigError(p: Payload, w: World): Option<string>
  {
    var env := Environment(p);
    if env == "" then Some("missing environment from payload")
    else if Webhook(w, env) == "" then Some("missing Mattermost Webhook variable")
    else if AlertWebhook(w, env) == "" then Some("missing Mattermost Webhook Alert variable")
    else None
  }

  function ErrorBody(msg: string): string
  {
    "{\"error\": \"" + msg + "\"}"
  }

  const OkBody: string := "{\"status\": \"ok\"}"

  function ClusterAttachment(p: Payload, timeText: string, keys: seq<string>): AttachmentValue
    requires forall k :: k in keys ==> k in p.extraData
  {
    AttachmentValue(
      if p.newState in ClusterFailureStates then Red else Green,
      Some("Cluster Event"),
      [Field("Cluster ID", p.id, true), Field("Type", p.typ, true), Field("New State", p.newState, true),
       Field("Old State", p.oldState, true), Field("Timestamp", timeText, true)]
      + ExtraDataFields(p.extraData, keys))
  }

  /** The marker field heading an installation that found no compatible cluster. */
  function MarkerFields(p: Payload): seq<Field>
  {
    if p.newState == NoCompatibleClusters then [Field("**No Compatible Clusters!!**", "", false)] else []
  }

  function InstallationAttachment(p: Payload, timeText: string, keys: seq<string>): AttachmentValue
    requires forall k :: k in keys ==> k in p.extraData
  {
    AttachmentValue(
      if p.newState in InstallationFailureStates then Red else InstallationColor,
      Some("Installation Event"),
      MarkerFields(p)
      + [Field("Installation ID", p.id, true), Field("Type", p.typ, true), Field("New State", p.newState, true),
         Field("Old State", p.oldState, true), Field("Timestamp", timeText, true)]
      + ExtraDataFields(p.extraData, keys))
  }

  /** The attachment handleClusterWebhook builds, field by field. */
  method BuildClusterAttachment(p: Payload, timeText: string) returns (a: AttachmentValue, keys: seq<string>)
    ensures IsKeyOrder(keys, p.extraData)
    ensures a == ClusterAttachment(p, timeText, keys)
  {
    var attach := new Attachment(Green);
    if p.newState in ClusterFailureStates {
      attach.color := Red;
    }
    ghost var color := attach.color;
    assert color == if p.newState in ClusterFailureStates then Red else Green;
    attach.AddField(Field("Cluster ID", p.id, true));
    attach.AddField(Field("Type", p.typ, true));
    attach.AddField(Field("New State", p.newState, true));
    attach.AddField(Field("Old State", p.oldState, true));
    attach.AddField(Field("Timestamp", timeText, true));
    ghost var fixed := attach.fields;
    assert fixed == [Field("Cluster ID", p.id, true), Field("Type", p.typ, true), Field("New State", p.newState, true),
                     Field("Old State", p.oldState, true), Field("Timestamp", timeText, true)];
    keys := AddExtraData(attach, p.extraData);
    attach.title := Some("Cluster Event");
    a := attach.Value();
    assert a == AttachmentValue(color, Some("Cluster Event"), fixed + ExtraDataFields(p.extraData, keys));
  }

  /** The attachment handleInstallationWebhook builds, field by field. */
  method BuildInstallationAttachment(p: Payload, timeText: string) returns (a: AttachmentValue, keys: seq<string>)
    ensures IsKeyOrder(keys, p.extraData)
    ensures a == InstallationAttachment(p, timeText, keys)
  {
    var attach := new Attachment(InstallationColor);
    if p.newState in InstallationFailureStates {
      attach.color := Red;
    }
    if p.newState == NoCompatibleClusters {
      attach.AddField(Field("**No Compatible Clusters!!**", "", false));
    }
    ghost var color := attach.color;
    assert color == if p.newState in InstallationFailureStates then Red else InstallationColor;
    ghost var marker := attach.fields;
    assert marker == MarkerFields(p);
    attach.AddField(Field("Installation ID", p.id, true));
    attach.AddField(Field("Type", p.typ, true));
    attach.AddField(Field("New State", p.newState, true));
    attach.AddField(Field("Old State", p.oldState, true));
    attach.AddField(Field("Timestamp", timeText, true));
    ghost var fixed := attach.fields;
    assert fixed == marker + [Field("Installation ID", p.id, true), Field("Type", p.typ, true), Field("New State", p.newState, true),
                              Field("Old State", p.oldState, true), Field("Timestamp", timeText, true)];
    keys := AddExtraData(attach, p.extraData);
    attach.title := Some("Installation Event");
    a := attach.Value();
    assert a == AttachmentValue(color, Some("Installation Event"), fixed + ExtraDataFields(p.extraData, keys));
  }

  function Message(env: string, a: AttachmentValue): SlashResponse
  {
    SlashResponse("Provisioner-" + env, AwsIcon, [a])
  }

  function PagerDutySummary(p: Payload): string
  {
    p.typ + " - " + p.id + " " + p.newState
  }

  function FixedDetails(p: Payload, env: string, timeText: string): map<string, string>
  {
    map["Type" := p.typ, "State" := p.newState, "Old_State" := p.oldState,
        "Timestamp" := timeText, "Env" := env]
  }

  /** sendPagerDutyNotification, as a value. */
  function PagerDutyOutcome(p: Payload, w: World): Outcome
  {
    var env := Environment(p);
    var key := Lookup(w.env, "PAGERDUTY_INTEGRATION_KEY");
    if env == "" then Outcome(Some("missing environment from payload"), [])
    else if key == "" then Outcome(Some("missing pagerduty integration key"), [])
    else
      Outcome(
        if w.pagerDutyFails then Some("Failed to send PagerDuty notification") else None,
        [TriggerPagerDuty(TriggerEvent(key, PagerDutySummary(p), FixedDetails(p, env, w.timestampText) + p.extraData))])
  }

  /** Builds the event (the fixed details, then every ExtraData entry copied
      over them) and sends it. */
  method SendPagerDutyNotification(p: Payload, w: World) returns (err: Option<string>, effects: seq<Effect>)
    ensures Outcome(err, effects) == PagerDutyOutcome(p, w)
  {
    var env := Environment(p);
    if env == "" {
      return Some("missing environment from payload"), [];
    }
    var key := Lookup(w.env, "PAGERDUTY_INTEGRATION_KEY");
    if key == "" {
      return Some("missing pagerduty integration key"), [];
    }
    var details := MergeDetails(FixedDetails(p, env, w.timestampText), p.extraData);
    effects := [TriggerPagerDuty(TriggerEvent(key, PagerDutySummary(p), details))];
    err := if w.pagerDutyFails then Some("Failed to send PagerDuty notification") else None;
  }

  /** A sent PagerDuty event is a critical trigger with the provisioner's
      summary whose details keep the five fixed keys unless ExtraData names
      them, and take every ExtraData value. */
  lemma PagerDutyEventShape(p: Payload, w: World)
    requires |PagerDutyOutcome(p, w).effects| > 0
    ensures var e := PagerDutyOutcome(p, w).effects;
      |e| == 1 && e[0].TriggerPagerDuty?
      && e[0].event.action == "trigger" && e[0].event.severity == "critical"
      && e[0].event.routingKey == Lookup(w.env, "PAGERDUTY_INTEGRATION_KEY") != ""
      && e[0].event.summary == PagerDutySummary(p)
      && (forall k :: k in p.extraData ==> e[0].event.details[k] == p.extraData[k])
      && (forall k :: k in FixedDetails(p, Environment(p), w.timestampText) && k !in p.extraData ==>
            e[0].event.details[k] == FixedDetails(p, Environment(p), w.timestampText)[k])
      && e[0].event.details.Keys == FixedDetails(p, Environment(p), w.timestampText).Keys + p.extraData.Keys
  {
  }

  /** The calls handleClusterWebhook makes once its checks pass. */
  function ClusterEffects(p: Payload, w: World, keys: seq<string>): seq<Effect>
    requires forall k :: k in keys ==> k in p.extraData
  {
    var env := Environment(p);
    var m := Message(env, ClusterAttachment(p, w.timestampText, keys));
    (if p.newState in ClusterFailureStates
     then [PostWebhook(AlertWebhook(w, env), m)] + PagerDutyOutcome(p, w).effects
     else [])
    + [PostWebhook(Webhook(w, env), m)]
  }

  method HandleClusterWebhook(p: Payload, w: World) returns (err: Option<string>, effects: seq<Effect>)
    ensures ConfigError(p, w).Some? ==> err == ConfigError(p, w) && effects == []
    ensures ConfigError(p, w) == None && p.typ != TypeCluster ==>
      err == Some("Unable to process payload type " + p.typ + " in 'handleClusterWebhook'") && effects == []
    ensures ConfigError(p, w) == None && p.typ == TypeCluster ==>
      err == PostError(w, Webhook(w, Environment(p)))
      && exists keys :: IsKeyOrder(keys, p.extraData) && effects == ClusterEffects(p, w, keys)
  {
    var env := Environment(p);
    if env == "" {
      return Some("missing environment from payload"), [];
    }
    var hook := Webhook(w, env);
    if hook == "" {
      return Some("missing Mattermost Webhook variable"), [];
    }
    var alertHook := AlertWebhook(w, env);
    if alertHook == "" {
      return Some("missing Mattermost Webhook Alert variable"), [];
    }
    if p.typ != TypeCluster {
      return Some("Unable to process payload type " + p.typ + " in 'handleClusterWebhook'"), [];
    }
    var a, keys := BuildClusterAttachment(p, w.timestampText);
    var alert := p.newState in ClusterFailureStates;
    var m := Message(env, a);
    effects := [];
    if alert {
      effects := [PostWebhook(alertHook, m)];
      var pdErr, pd := SendPagerDutyNotification(p, w);
      assert pd == PagerDutyOutcome(p, w).effects;
      effects := effects + pd;
    }
    effects := effects + [PostWebhook(hook, m)];
    err := PostError(w, hook);
    assert effects == ClusterEffects(p, w, keys);
  }

  /** Cluster routing: the normal webhook is always posted last; a failure
      state, and only a failure state, colours the message red and posts to
      the alert webhook first, then (when configured) to PagerDuty. */
  lemma ClusterRouting(p: Payload, w: World, keys: seq<string>)
    requires ConfigError(p, w) == None && IsKeyOrder(keys, p.extraData)
    ensures var e := ClusterEffects(p, w, keys);
      var m := Message(Environment(p), ClusterAttachment(p, w.timestampText, keys));
      e[|e| - 1] == PostWebhook(Webhook(w, Environment(p)), m)
      && (m.attachments[0].color == Red <==> p.newState in ClusterFailureStates)
      && (p.newState in ClusterFailureStates ==>
            e[0] == PostWebhook(AlertWebhook(w, Environment(p)), m)
            && |e| == (if Lookup(w.env, "PAGERDUTY_INTEGRATION_KEY") == "" then 2 else 3))
      && (p.newState !in ClusterFailureStates ==> e == [PostWebhook(Webhook(w, Environment(p)), m)])
  {
  }

  /** The calls handleInstallationWebhook makes once its checks pass, and
      what it returns. */
  function InstallationOutcome(p: Payload, w: World, keys: seq<string>): Outcome
    requires forall k :: k in keys ==> k in p.extraData
  {
    var env := Environment(p);
    var m := Message(env, InstallationAttachment(p, w.timestampText, keys));
    if p.newState in InstallationFailureStates then
      var alertErr := PostError(w, AlertWebhook(w, env));
      if alertErr.Some? then Outcome(alertErr, [PostWebhook(AlertWebhook(w, env), m)])
      else
        var pd := PagerDutyOutcome(p, w);
        Outcome(pd.err, [PostWebhook(AlertWebhook(w, env), m)] + pd.effects)
    else if p.newState == CreationRequested || (p.oldState == CreationInProgress && p.newState == Stable) then
      Outcome(PostError(w, Webhook(w, env)), [PostWebhook(Webhook(w, env), m)])
    else Outcome(None, [])
  }

  method HandleInstallationWebhook(p: Payload, w: World) returns (err: Option<string>, effects: seq<Effect>)
    ensures ConfigError(p, w).Some? ==> err == ConfigError(p, w) && effects == []
    ensures ConfigError(p, w) == None && p.typ != TypeInstallation ==>
      err == Some("Unable to process payload type " + p.typ + " in 'handleInstallationWebhook'") && effects == []
    ensures ConfigError(p, w) == None && p.typ == TypeInstallation ==>
      exists keys :: IsKeyOrder(keys, p.extraData) && Outcome(err, effects) == InstallationOutcome(p, w, keys)
  {
    var env := Environment(p);
    if env == "" {
      return Some("missing environment from payload"), [];
    }
    var hook := Webhook(w, env);
    if hook == "" {
      return Some("missing Mattermost Webhook variable"), [];
    }
    var alertHook := AlertWebhook(w, env);
    if alertHook == "" {
      return Some("missing Mattermost Webhook Alert variable"), [];
    }
    if p.typ != TypeInstallation {
      return Some("Unable to process payload type " + p.typ + " in 'handleInstallationWebhook'"), [];
    }
    var a, keys := BuildInstallationAttachment(p, w.timestampText);
    var alert := p.newState in InstallationFailureStates;
    var m := Message(env, a);
    if alert {
      effects := [PostWebhook(alertHook, m)];
      err := PostError(w, alertHook);
      if err.Some? {
        assert Outcome(err, effects) == InstallationOutcome(p, w, keys);
        return;
      }
      var pd;
      err, pd := SendPagerDutyNotification(p, w);
      effects := effects + pd;
      assert Outcome(err, effects) == InstallationOutcome(p, w, keys);
      return;
    }
    if p.newState == CreationRequested {
      effects := [PostWebhook(hook, m)];
      err := PostError(w, hook);
    } else if p.oldState == CreationInProgress && p.newState == Stable {
      effects := [PostWebhook(hook, m)];
      err := PostError(w, hook);
    } else {
      err, effects := None, [];
    }
    assert Outcome(err, effects) == InstallationOutcome(p, w, keys);
  }

  /** Installation routing: a failure state posts to the alert webhook and
      to nothing but PagerDuty after it (and only when that post went
      through), so the normal webhook is not used; otherwise the normal
      webhook is posted exactly for a creation request or the step from
      creation-in-progress to stable, and nothing else is sent. */
  lemma InstallationRouting(p: Payload, w: World, keys: seq<string>)
    requires ConfigError(p, w) == None && IsKeyOrder(keys, p.extraData)
    ensures var o := InstallationOutcome(p, w, keys);
      var env := Environment(p);
      var m := Message(env, InstallationAttachment(p, w.timestampText, keys));
      (p.newState in InstallationFailureStates ==>
         o.effects[0] == PostWebhook(AlertWebhook(w, env), m)
         && (forall i :: 1 <= i < |o.effects| ==> o.effects[i].TriggerPagerDuty?)
         && (|o.effects| > 1 <==> PostError(w, AlertWebhook(w, env)) == None
                                  && Lookup(w.env, "PAGERDUTY_INTEGRATION_KEY") != ""))
      && (p.newState !in InstallationFailureStates ==>
           (o.effects != [] <==> p.newState == CreationRequested || (p.oldState == CreationInProgress && p.newState == Stable))
           && (o.effects != [] ==> o.effects == [PostWebhook(Webhook(w, env), m)]))
  {
  }

  /** processWebhookEvent: a payload that cannot be re-encoded is dropped;
      cluster and installation payloads go to their handlers, whose errors
      are only logged; every other type is ignored. */
  method ProcessWebhookEvent(p: Payload, w: World) returns (effects: seq<Effect>)
    ensures w.toJSONFails ==> effects == []
    ensures !w.toJSONFails && p.typ == TypeCluster && ConfigError(p, w) == None ==>
      exists keys :: IsKeyOrder(keys, p.extraData) && effects == ClusterEffects(p, w, keys)
    ensures !w.toJSONFails && p.typ == TypeInstallation && ConfigError(p, w) == None ==>
      exists keys :: IsKeyOrder(keys, p.extraData) && effects == InstallationOutcome(p, w, keys).effects
    ensures p.typ != TypeCluster && p.typ != TypeInstallation ==> effects == []
    ensures ConfigError(p, w).Some? ==> effects == []
  {
    if w.toJSONFails {
      return [];
    }
    var err;
    if p.typ == TypeCluster {
      err, effects := HandleClusterWebhook(p, w);
    } else if p.typ == TypeInstallation {
      err, effects := HandleInstallationWebhook(p, w);
    } else {
      effects := [];
    }
  }

  /** The API Gateway handler. `parsed` is what decoding a non-empty body
      gave. Only an empty or undecodable body is answered with 400; every
      decoded payload is answered with 200 whatever processing did. */
  method Handler(body: string, parsed: Result<Payload>, w: World) returns (resp: Response, effects: seq<Effect>)
    ensures body == "" ==> resp == Response(400, ErrorBody("request is empty")) && effects == []
    ensures body != "" && parsed.Err? ==>
      resp == Response(400, ErrorBody("failed to parse the body: " + parsed.error)) && effects == []
    ensures body != "" && parsed.Ok? ==> resp == Response(200, OkBody)
    ensures (body != "" && parsed.Ok? && !w.toJSONFails && parsed.value.typ == TypeCluster &&
             ConfigError(parsed.value, w) == None) ==>
      exists keys :: IsKeyOrder(keys, parsed.value.extraData) && effects == ClusterEffects(parsed.value, w, keys)
    ensures (body != "" && parsed.Ok? && !w.toJSONFails && parsed.value.typ == TypeInstallation &&
             ConfigError(parsed.value, w) == None) ==>
      exists keys :: IsKeyOrder(keys, parsed.value.extraData)
        && effects == InstallationOutcome(parsed.value, w, keys).effects
    ensures body != "" && parsed.Ok? && w.toJSONFails ==> effects == []
    ensures body != "" && parsed.Ok? && parsed.value.typ != TypeCluster && parsed.value.typ != TypeInstallation ==>
      effects == []
    ensures body != "" && parsed.Ok? && ConfigError(parsed.value, w).Some? ==> effects == []
  {
    if body == "" {
      return Response(400, ErrorBody("request is empty")), [];
    }
    if parsed.Err? {
      return Response(400, ErrorBody("failed to parse the body: " + parsed.error)), [];
    }
    effects := ProcessWebhookEvent(parsed.value, w);
    resp := Response(200, OkBody);
  }
}
