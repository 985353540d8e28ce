/** The release-ring webhook relay: an API Gateway handler that receives a
    ring state change from the ring release manager and relays it to
    Mattermost, and failures to OpsGenie. */
module ElrondNotification {
  import opened Common
  import opened Notification

  const TypeRing: string := "ring"

  const RingStateCreationFailed: string := "creation-failed"
  const RingStateDeletionFailed: string := "deletion-failed"
  const RingStateReleaseRollbackFailed: string := "release-rollback-failed"
  const RingStateSoakingFailed: string := "soaking-failed"
  const RingStateReleaseFailed: string := "release-failed"
  const InstallationGroupReleaseFailed: string := "installation-group-release-failed"
  const InstallationGroupReleaseSoakingFailed: string := "installation-group-release-soaking-failed"

  const RingFailureStates: set<string> :=
    {RingStateCreationFailed, RingStateDeletionFailed, RingStateReleaseRollbackFailed, RingStateSoakingFailed,
     RingStateReleaseFailed, InstallationGroupReleaseFailed, InstallationGroupReleaseSoakingFailed}

  const ElrondIcon: string := "https://www.looper.com/img/gallery/elronds-backstory-explained/intro-1597335791.jpg"

  datatype Payload = Payload(
    typ: string, id: string, newState: string, oldState: string, timestamp: int,
    extraData: map<string, string>)

  /** The answers of everything outside the handler: the environment, the
      rendering of the timestamp, failing webhook URLs, the error (if any) of
      creating the OpsGenie client and of creating the alert, and whether
      re-encoding the payload fails. */
  datatype World = World(
    env: map<string, string>, timestampText: string, webhookErrors: map<string, string>,
    opsGenieClientError: Option<string>, opsGenieCreateError: Option<string>, toJSONFails: bool)

  datatype Effect = PostWebhook(url: string, message: SlashResponse) | CreateOpsGenieAlert(alert: OpsGenieAlert)

  datatype Response = Response(statusCode: int, body: string)

  datatype Outcome = Outcome(err: Option<string>, effects: seq<Effect>)

  function PostError(w: World, url: string): Option<string>
  {
    if url in w.webhookErrors then Some(w.webhookErrors[url]) else None
  }

  /** The environment comes from the process, as it is (not upper-cased). */
  function Environment(w: World): string
  {
    Lookup(w.env, "ENVIRONMENT")
  }

  function Webhook(w: World): string
  {
    Lookup(w.env, "MATTERMOST_ELROND_WEBHOOK_" + Environment(w))
  }

  function AlertWebhook(w: World): string
  {
    Lookup(w.env, "MATTERMOST_WEBHOOK_ALERT_" + Environment(w))
  }

  function ConfigError(w: World): Option<string>
  {
    if Environment(w) == "" then Some("missing environment from payload")
    else if Webhook(w) == "" then Some("missing Mattermost Webhook variable")
    else if AlertWebhook(w) == "" then Some("missing Mattermost Webhook Alert variable")
    else None
  }

  function ErrorBody(msg: string): string
  {
    "{\"error\": \"" + msg + "\"}"
  }

  const OkBody: string := "{\"status\": \"ok\"}"

  function RingAttachment(p: Payload, timeText: string, keys: seq<string>): AttachmentValue
    requires forall k :: k in keys ==> k in p.extraData
  {
    AttachmentValue(
      if p.newState in RingFailureStates then Red else Green,
      Some("Cluster Event"),
      [Field("Ring ID", p.id, true), Field("Type", p.typ, true), Field("New State", p.newState, true),
       Field("Old State", p.oldState, true), Field("Timestamp", timeText, true)]
      + ExtraDataFields(p.extraData, keys))
  }

  function Message(env: string, a: AttachmentValue): SlashResponse
  {
    SlashResponse("Elrond-" + env, ElrondIcon, [a])
  }

  method BuildRingAttachment(p: Payload, timeText: string) returns (a: AttachmentValue, keys: seq<string>)
    ensures IsKeyOrder(keys, p.extraData)
    ensures a == RingAttachment(p, timeText, keys)
  {
    var attach := new Attachment(Green);
    if p.newState in RingFailureStates {
      attach.color := Red;
    }
    attach.AddField(Field("Ring ID", p.id, true));
    attach.AddField(Field("Type", p.typ, true));
    attach.AddField(Field("New State", p.newState, true));
    attach.AddField(Field("Old State", p.oldState, true));
    attach.AddField(Field("Timestamp", timeText, true));
    keys := AddExtraData(attach, p.extraData);
    attach.title := Some("Cluster Event");
    a := attach.Value();
  }

  function AlertText(p: Payload): string
  {
    p.typ + " - " + p.id + " " + p.newState
  }

  function FixedDetails(p: Payload, env: string, timeText: string): map<string, string>
  {
    map["Type" := p.typ, "State" := p.newState, "Old_State" := p.oldState,
        "Timestamp" := timeText, "Env" := env]
  }

  /** sendOpsGenieNotification, as a value. */
  function OpsGenieOutcome(p: Payload, w: World): Outcome
  {
    var env := Environment(w);
    var apiKey := Lookup(w.env, "OPSGENIE_APIKEY");
    var team := Lookup(w.env, "OPSGENIE_SCHEDULER_TEAM");
    if env == "" then Outcome(Some("missing environment from payload"), [])
    else if apiKey == "" || team == "" then Outcome(Some("missing OpsGenie APIKEY/Scheduler team setup"), [])
    else if w.opsGenieClientError.Some? then Outcome(w.opsGenieClientError, [])
    else
      Outcome(w.opsGenieCreateError,
        [CreateOpsGenieAlert(OpsGenieAlert(AlertText(p), AlertText(p), [team], ["Elrond", p.typ],
                                           FixedDetails(p, env, w.timestampText) + p.extraData, P2))])
  }

  method SendOpsGenieNotification(p: Payload, w: World) returns (err: Option<string>, effects: seq<Effect>)
    ensures Outcome(err, effects) == OpsGenieOutcome(p, w)
  {
    var env := Environment(w);
    if env == "" {
      return Some("missing environment from payload"), [];
    }
    var apiKey := Lookup(w.env, "OPSGENIE_APIKEY");
    var team := Lookup(w.env, "OPSGENIE_SCHEDULER_TEAM");
    if apiKey == "" || team == "" {
      return Some("missing OpsGenie APIKEY/Scheduler team setup"), [];
    }
    if w.opsGenieClientError.Some? {
      return w.opsGenieClientError, [];
    }
    var details := MergeDetails(FixedDetails(p, env, w.timestampText), p.extraData);
    var req := OpsGenieAlert(AlertText(p), AlertText(p), [team], ["Elrond", p.typ], details, P2);
    effects := [CreateOpsGenieAlert(req)];
    err := w.opsGenieCreateError;
  }

  /** An alert is created only with both the API key and the scheduler team
      set; it goes to that team's schedule, is tagged Elrond and the ring
      type, has priority P2, and its details take every ExtraData value over
      the fixed keys. */
  lemma OpsGenieAlertShape(p: Payload, w: World)
    ensures var o := OpsGenieOutcome(p, w);
      (|o.effects| > 0 <==> Environment(w) != "" && Lookup(w.env, "OPSGENIE_APIKEY") != ""
                            && Lookup(w.env, "OPSGENIE_SCHEDULER_TEAM") != "" && w.opsGenieClientError == None)
      && (|o.effects| > 0 ==>
            |o.effects| == 1 && o.effects[0].CreateOpsGenieAlert?
            && o.effects[0].alert.scheduleResponders == [Lookup(w.env, "OPSGENIE_SCHEDULER_TEAM")]
            && o.effects[0].alert.tags == ["Elrond", p.typ]
            && o.effects[0].alert.priority == P2
            && o.effects[0].alert.message == o.effects[0].alert.description == AlertText(p)
            && (forall k :: k in p.extraData ==> o.effects[0].alert.details[k] == p.extraData[k])
            && o.effects[0].alert.details.Keys == {"Type", "State", "Old_State", "Timestamp", "Env"} + p.extraData.Keys)
      && (|o.effects| == 0 ==> o.err.Some?)
  {
  }

  /** The calls handleRingWebhook makes once its checks pass. */
  function RingEffects(p: Payload, w: World, keys: seq<string>): seq<Effect>
    requires forall k :: k in keys ==> k in p.extraData
  {
    var m := Message(Environment(w), RingAttachment(p, w.timestampText, keys));
    (if p.newState in RingFailureStates
     then [PostWebhook(AlertWebhook(w), m)] + OpsGenieOutcome(p, w).effects
     else [])
    + [PostWebhook(Webhook(w), m)]
  }

  method HandleRingWebhook(p: Payload, w: World) returns (err: Option<string>, effects: seq<Effect>)
    ensures ConfigError(w).Some? ==> err == ConfigError(w) && effects == []
    ensures ConfigError(w) == None ==>
      err == PostError(w, Webhook(w))
      && exists keys :: IsKeyOrder(keys, p.extraData) && effects == RingEffects(p, w, keys)
  {
    var env := Environment(w);
    if env == "" {
      return Some("missing environment from payload"), [];
    }
    var hook := Webhook(w);
    if hook == "" {
      return Some("missing Mattermost Webhook variable"), [];
    }
    var alertHook := AlertWebhook(w);
    if alertHook == "" {
      return Some("missing Mattermost Webhook Alert variable"), [];
    }
    var a, keys := BuildRingAttachment(p, w.timestampText);
    var alert := p.newState in RingFailureStates;
    var m := Message(env, a);
    effects := [];
    if alert {
      effects := effects + [PostWebhook(alertHook, m)];
      var ogErr, og := SendOpsGenieNotification(p, w);
      effects := effects + og;
    }
    assert effects == if alert then [PostWebhook(alertHook, m)] + OpsGenieOutcome(p, w).effects else [];
    effects := effects + [PostWebhook(hook, m)];
    err := PostError(w, hook);
    assert effects == RingEffects(p, w, keys);
  }

  /** Ring routing: the normal webhook is always posted last; one of the
      seven failure states, and only those, colours the message red and posts
      to the alert webhook first, then to OpsGenie when it is configured. */
  lemma RingRouting(p: Payload, w: World, keys: seq<string>)
    requires ConfigError(w) == None && IsKeyOrder(keys, p.extraData)
    ensures var e := RingEffects(p, w, keys);
      var m := Message(Environment(w), RingAttachment(p, w.timestampText, keys));
      e[|e| - 1] == PostWebhook(Webhook(w), m)
      && m.username == "Elrond-" + Lookup(w.env, "ENVIRONMENT")
      && (m.attachments[0].color == Red <==> p.newState in RingFailureStates)
      && (p.newState in RingFailureStates ==> e[0] == PostWebhook(AlertWebhook(w), m) && 2 <= |e| <= 3)
      && (p.newState !in RingFailureStates ==> e == [PostWebhook(Webhook(w), m)])
  {
  }

  /** processWebhookEvent: only ring payloads that can be re-encoded are
      handled; the handler's error is only logged. */
  method ProcessWebhookEvent(p: Payload, w: World) returns (effects: seq<Effect>)
    ensures w.toJSONFails || p.typ != TypeRing || ConfigError(w).Some? ==> effects == []
    ensures !w.toJSONFails && p.typ == TypeRing && ConfigError(w) == None ==>
      exists keys :: IsKeyOrder(keys, p.extraData) && effects == RingEffects(p, w, keys)
  {
    if w.toJSONFails {
      return [];
    }
    if p.typ == TypeRing {
      var err;
      err, effects := HandleRingWebhook(p, w);
    } else {
      effects := [];
    }
  }

  method Handler(body: string, parsed: Result<Payload>, w: World) returns (resp: Response, effects: seq<Effect>)
    ensures body == "" ==> resp == Response(400, ErrorBody("request is empty")) && effects == []
    ensures body != "" && parsed.Err? ==>
      resp == Response(400, ErrorBody("failed to parse the body: " + parsed.error)) && effects == []
    ensures body != "" && parsed.Ok? ==> resp == Response(200, OkBody)
    ensures (body != "" && parsed.Ok? && !w.toJSONFails && parsed.value.typ == TypeRing && ConfigError(w) == None) ==>
      exists keys :: IsKeyOrder(keys, parsed.value.extraData) && effects == RingEffects(parsed.value, w, keys)
    ensures body != "" && parsed.Ok? && parsed.value.typ != TypeRing ==> effects == []
    ensures body != "" && parsed.Ok? && w.toJSONFails ==> effects == []
    ensures body != "" && parsed.Ok? && ConfigError(w).Some? ==> effects == []
  {
    if body == "" {
      return Response(400, ErrorBody("request is empty")), [];
    }
    if parsed.Err? {
      return Response(400, ErrorBody("failed to parse the body: " + parsed.error)), [];
    }
    effects := ProcessWebhookEvent(parsed.value, w);
    resp := Response(200, OkBody);
  }
}
