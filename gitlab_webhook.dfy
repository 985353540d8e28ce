/** The GitLab webhook relay: a pipeline event waiting on a manual job posts
    an approval link to Mattermost; every other request is refused with 400. */
module GitlabWebhook {
  import opened Common
  import Strconv

  const EventHeader: string := "X-Gitlab-Event"
  const PipelineHook: string := "Pipeline Hook"
  const OkBody: string := "{\"status\": \"ok\"}"

  /** The parts of a pipeline build the relay reads. */
  datatype Build = Build(id: int, name: string, status: string, manual: bool)

  /** The parts of a pipeline event the relay reads. */
  datatype PipelineEvent = PipelineEvent(webURL: string, builds: seq<Build>)

  /** An API Gateway request: its body and headers. */
  datatype Request = Request(body: string, headers: map<string, string>)

  datatype Response = Response(statusCode: int, body: string)

  /** The only effect: a Mattermost approval request for a job, whose send
      failure is only logged. */
  datatype Effect = NotifyApproval(jobName: string, message: string)

  function ErrorBody(msg: string): string
  {
    "{\"error\": \"" + msg + "\"}"
  }

  predicate AwaitsApproval(b: Build)
  {
    b.status == "manual" && b.manual
  }

  function ApprovalMessage(webURL: string, b: Build): string
  {
    "Approve here: " + webURL + "/-/jobs/" + Strconv.Itoa(b.id)
  }

  /** The index of the first build awaiting approval, if any. */
  function FirstManual(builds: seq<Build>): (r: Option<nat>)
    ensures r.None? <==> forall i :: 0 <= i < |builds| ==> !AwaitsApproval(builds[i])
    ensures r.Some? ==> (r.value < |builds| && AwaitsApproval(builds[r.value])
      && forall i :: 0 <= i < r.value ==> !AwaitsApproval(builds[i]))
  {
    if |builds| == 0 then None
    else if AwaitsApproval(builds[0]) then Some(0)
    else
      var rest := FirstManual(builds[1..]);
      assert forall i :: 1 <= i < |builds| ==> builds[i] == builds[1..][i - 1];
      if rest.None? then None else Some(rest.value + 1)
  }

  function PipelineEffects(e: PipelineEvent): seq<Effect>
  {
    var k := FirstManual(e.builds);
    if k.None? then [] else [NotifyApproval(e.builds[k.value].name, ApprovalMessage(e.webURL, e.builds[k.value]))]
  }

  /** handlePipelineEvent */
  method HandlePipelineEvent(e: PipelineEvent) returns (effects: seq<Effect>)
    ensures effects == PipelineEffects(e)
  {
    for i := 0 to |e.builds|
      invariant forall j :: 0 <= j < i ==> !AwaitsApproval(e.builds[j])
    {
      var build := e.builds[i];
      if build.status == "manual" && build.manual {
        return [NotifyApproval(build.name, "Approve here: " + e.webURL + "/-/jobs/" + Strconv.Itoa(build.id))];
      }
    }
    effects := [];
  }

  /** At most one approval is requested, for the first build awaiting one;
      builds after it are ignored, and none is requested when no build
      awaits approval. */
  lemma FirstManualBuildOnly(e: PipelineEvent)
    ensures |PipelineEffects(e)| <= 1
    ensures |PipelineEffects(e)| == 0 <==> forall i :: 0 <= i < |e.builds| ==> !AwaitsApproval(e.builds[i])
    ensures |PipelineEffects(e)| == 1 ==>
      exists k :: 0 <= k < |e.builds| && AwaitsApproval(e.builds[k])
        && (forall i :: 0 <= i < k ==> !AwaitsApproval(e.builds[i]))
        && PipelineEffects(e)[0] == NotifyApproval(e.builds[k].name, ApprovalMessage(e.webURL, e.builds[k]))
  {
    var k := FirstManual(e.builds);
    if k.Some? {
      assert AwaitsApproval(e.builds[k.value]);
    }
  }

  /** Builds after the first one awaiting approval change nothing. */
  lemma LaterBuildsIgnored(webURL: string, before: seq<Build>, b: Build, after: seq<Build>)
    requires forall i :: 0 <= i < |before| ==> !AwaitsApproval(before[i])
    requires AwaitsApproval(b)
    ensures PipelineEffects(PipelineEvent(webURL, before + [b] + after)) == [NotifyApproval(b.name, ApprovalMessage(webURL, b))]
  {
    var builds := before + [b] + after;
    assert builds[|before|] == b;
    assert forall i :: 0 <= i < |before| ==> builds[i] == before[i];
    var k := FirstManual(builds);
    assert k.value == |before|;
  }

  /** The response, the decoded pipeline event answering with 200. `decoded`
      is what decoding the body gives, or the decoder's error. */
  function HandlerResult(request: Request, decoded: Result<PipelineEvent>): (Response, seq<Effect>)
  {
    var eventType := Lookup(request.headers, EventHeader);
    if request.body == "" then (Response(400, ErrorBody("request is empty")), [])
    else if eventType == "" then (Response(400, ErrorBody("no GitLab Event headers")), [])
    else if eventType != PipelineHook then (Response(400, ErrorBody("event " + eventType + " not implemented")), [])
    else if decoded.Err? then (Response(400, ErrorBody(decoded.error)), [])
    else (Response(200, OkBody), PipelineEffects(decoded.value))
  }

  method Handler(request: Request, decoded: Result<PipelineEvent>) returns (resp: Response, effects: seq<Effect>)
    ensures (resp, effects) == HandlerResult(request, decoded)
  {
    if request.body == "" {
      return Response(400, ErrorBody("request is empty")), [];
    }
    var eventType := Lookup(request.headers, "X-Gitlab-Event");
    if eventType == "" {
      return Response(400, ErrorBody("no GitLab Event headers")), [];
    }
    if eventType == "Pipeline Hook" {
      if decoded.Err? {
        return Response(400, ErrorBody(decoded.error)), [];
      }
      effects := HandlePipelineEvent(decoded.value);
    } else {
      return Response(400, ErrorBody("event " + eventType + " not implemented")), [];
    }
    resp := Response(200, "{\"status\": \"ok\"}");
  }

  /** Only a non-empty body of a pipeline hook that decodes is answered with
      200, and only then may a notification be sent; everything else is a
      400 with an error body and no effect. */
  lemma Dispatch(request: Request, decoded: Result<PipelineEvent>)
    ensures var (resp, effects) := HandlerResult(request, decoded);
      (resp.statusCode == 200 <==>
         request.body != "" && Lookup(request.headers, EventHeader) == PipelineHook && decoded.Ok?)
      && (resp.statusCode != 200 ==> resp.statusCode == 400 && effects == [] && HasPrefix(resp.body, "{\"error\": \""))
      && (resp.statusCode == 200 ==> resp.body == OkBody)
  {
  }
}
