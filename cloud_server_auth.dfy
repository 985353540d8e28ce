/** The authenticating proxy in front of the cloud provisioner: it relays an
    API Gateway request to the provisioner only when the request's path is
    on the allow-list, and reports every failure to a Mattermost webhook. */
module CloudServerAuth {
  import opened Common

  const CloudServerEnv: string := "CLOUD_SERVER"
  const MattermostWebhookEnv: string := "MATTERMOST_WEBHOOK"
  const WebhookIconURL: string := "https://images2.minutemediacdn.com/image/upload/c_fill,g_auto,h_1248,w_2220/f_auto,q_auto,w_1100/v1555925520/shape/mentalfloss/800px-princesslineup.jpg"

  datatype Config = Config(cloudServerURL: string, mattermostWebhookURL: string)

  /** loadConfig: both variables must be set, CLOUD_SERVER being checked first. */
  function NotSet(name: string): string
  {
    "environment variable " + name + " is not set"
  }

  function LoadConfig(env: map<string, string>): (r: Result<Config>)
    ensures r.Ok? <==> Lookup(env, CloudServerEnv) != "" && Lookup(env, MattermostWebhookEnv) != ""
    ensures Lookup(env, CloudServerEnv) == "" ==> r == Err(NotSet(CloudServerEnv))
    ensures Lookup(env, CloudServerEnv) != "" && Lookup(env, MattermostWebhookEnv) == "" ==>
      r == Err(NotSet(MattermostWebhookEnv))
    ensures r.Ok? ==> r.value.cloudServerURL == env[CloudServerEnv] && r.value.mattermostWebhookURL == env[MattermostWebhookEnv]
  {
    var cloudServerURL := Lookup(env, CloudServerEnv);
    if cloudServerURL == "" then Err(NotSet(CloudServerEnv))
    else
      var mattermostWebhookURL := Lookup(env, MattermostWebhookEnv);
      if mattermostWebhookURL == "" then Err(NotSet(MattermostWebhookEnv))
      else Ok(Config(cloudServerURL, mattermostWebhookURL))
  }

  /** The literal prefixes, each with and without its leading slash. */
  const ValidPrefixes: seq<string> := [
    "api/installation", "/api/installation",
    "api/cluster_installation", "/api/cluster_installation",
    "api/webhooks", "/api/webhooks",
    "/api/webhook", "api/webhook"]

  const LockPrefix: string := "/api/security/installation/"
  const LockSuffix: string := "/deletion/lock"
  const UnlockSuffix: string := "/deletion/unlock"
  const IdLength: nat := 26

  /** The character class [a-zA-Z0-9]. */
  predicate IsAlnum(c: char)
  {
    ('a' <= c <= 'z') || ('A' <= c <= 'Z') || ('0' <= c <= '9')
  }

  predicate AllAlnum(s: string)
  {
    forall i :: 0 <= i < |s| ==> IsAlnum(s[i])
  }

  /** The whole path is LockPrefix, then exactly 26 characters of the class,
      then `suffix`: one of the two anchored patterns. */
  predicate MatchesIdPattern(path: string, suffix: string)
  {
    |path| == |LockPrefix| + IdLength + |suffix|
    && path[..|LockPrefix|] == LockPrefix
    && AllAlnum(path[|LockPrefix|..|LockPrefix| + IdLength])
    && path[|LockPrefix| + IdLength..] == suffix
  }

  /** isAuthorized, over the escaped path of the resolved URL: only paths
      under "api/" or "/api/" are ever accepted. */
  predicate IsAuthorized(escapedPath: string): (b: bool)
    ensures b ==> HasPrefix(escapedPath, "api/") || HasPrefix(escapedPath, "/api/")
  {
    PrefixesUnderApi(escapedPath);
    (exists i :: 0 <= i < |ValidPrefixes| && HasPrefix(escapedPath, ValidPrefixes[i]))
    || MatchesIdPattern(escapedPath, LockSuffix)
    || MatchesIdPattern(escapedPath, UnlockSuffix)
  }

  /** Every listed prefix, and the lock and unlock patterns, lie under
      "api/" or "/api/". */
  lemma PrefixesUnderApi(path: string)
    ensures forall i :: 0 <= i < |ValidPrefixes| && HasPrefix(path, ValidPrefixes[i]) ==>
      HasPrefix(path, "api/") || HasPrefix(path, "/api/")
    ensures MatchesIdPattern(path, LockSuffix) || MatchesIdPattern(path, UnlockSuffix) ==> HasPrefix(path, "/api/")
  {
    forall i | 0 <= i < |ValidPrefixes| && HasPrefix(path, ValidPrefixes[i])
      ensures HasPrefix(path, "api/") || HasPrefix(path, "/api/")
    {
      var p := ValidPrefixes[i];
      assert path[..|p|] == p;
      if p[0] == '/' {
        assert p[..5] == "/api/";
        assert path[..5] == p[..5];
      } else {
        assert p[..4] == "api/";
        assert path[..4] == p[..4];
      }
    }
    if MatchesIdPattern(path, LockSuffix) || MatchesIdPattern(path, UnlockSuffix) {
      assert path[..5] == LockPrefix[..5];
    }
  }

  /** The prefix test is a plain string test, not aware of path segments:
      "/api/installationX" passes as if it were under "/api/installation". */
  lemma PrefixIsNotSegmentAware()
    ensures IsAuthorized("/api/installationX")
    ensures !IsAuthorized("/api/other")
  {
    assert HasPrefix("/api/installationX", ValidPrefixes[1]);
    assert !MatchesIdPattern("/api/other", LockSuffix);
  }

  /** Any path that starts with a listed prefix is accepted. */
  lemma PrefixAccepted(path: string, i: int)
    requires 0 <= i < |ValidPrefixes| && HasPrefix(path, ValidPrefixes[i])
    ensures IsAuthorized(path)
  {
  }

  /** A lock or unlock path is accepted exactly when its id has 26
      characters: for an id of the class, neither 25 nor 27 characters, nor
      any other length, is let through by either pattern. */
  lemma {:induction false} IdPatternExactLength(id: string, unlock: bool)
    requires AllAlnum(id)
    ensures var path := LockPrefix + id + (if unlock then UnlockSuffix else LockSuffix);
      (MatchesIdPattern(path, LockSuffix) || MatchesIdPattern(path, UnlockSuffix)) <==> |id| == IdLength
  {
    var suffix := if unlock then UnlockSuffix else LockSuffix;
    var path := LockPrefix + id + suffix;
    assert path[..|LockPrefix|] == LockPrefix;
    if |id| == IdLength {
      assert path[|LockPrefix|..|LockPrefix| + IdLength] == id;
      assert path[|LockPrefix| + IdLength..] == suffix;
    } else if !unlock && |id| == IdLength + 2 {
      // The unlock pattern's length, but its suffix would begin inside the id.
      assert path[|LockPrefix| + IdLength] == id[IdLength];
      assert IsAlnum(path[|LockPrefix| + IdLength]);
      assert path[|LockPrefix| + IdLength..][0] != UnlockSuffix[0];
    } else if unlock && |id| == IdLength - 2 {
      // The lock pattern's length, but its id window would end on a '/'.
      assert path[|LockPrefix| + |id|] == '/';
      assert path[|LockPrefix|..|LockPrefix| + IdLength][|id|] == '/';
    }
  }

  /** The anchored patterns accept nothing longer: a character appended to a
      lock or unlock path is only accepted if it is accepted as a prefix path. */
  lemma IdPatternAnchored(path: string, c: char)
    requires MatchesIdPattern(path, LockSuffix) || MatchesIdPattern(path, UnlockSuffix)
    ensures !MatchesIdPattern(path + [c], LockSuffix) && !MatchesIdPattern(path + [c], UnlockSuffix)
  {
  }

  /** An API Gateway proxy request, as far as the proxy reads it. */
  datatype Request = Request(
    httpMethod: string, path: string, queryParameters: map<string, string>, body: string, requestID: string)

  /** What the libraries and the network answer: the errors of parsing the
      base URL and the path, the escaped path and text of the URL that
      resolving the path (with its query) against the base gives, the error
      of building the outbound request, the cloud server's answer, the error
      of reading its body, and whether building the webhook request fails. */
  datatype Net = Net(
    cloudURLError: Option<string>, pathError: Option<string>,
    finalEscapedPath: string, finalURL: string,
    newRequestError: Option<string>, upstream: Result<Upstream>, readError: Option<string>,
    webhookRequestFails: bool)

  datatype Upstream = Upstream(statusCode: int, body: string)

  datatype OutboundRequest = OutboundRequest(
    httpMethod: string, url: string, body: string, headers: map<string, string>, timeoutSeconds: int)

  datatype WebhookRequest = WebhookRequest(username: string, text: string, iconURL: string)

  datatype Effect =
    | CallCloudServer(request: OutboundRequest)
    | PostWebhook(url: string, payload: WebhookRequest, timeoutSeconds: int)

  /** The body is either the upstream's text or the JSON object {"error": msg}. */
  datatype Body = Text(text: string) | ErrorObject(error: string)

  datatype Response = Response(statusCode: int, headers: map<string, string>, body: Body)

  datatype Reply = Reply(response: Response, err: Option<string>, effects: seq<Effect>)

  /** One `Label: value` line of the failure notification. */
  function Line(name: string, value: string): string
  {
    name + ": " + value + "\n"
  }

  /** The fixed head of the failure notification. */
  function FailureHead(request: Request, e: string): string
  {
    "Cloud Auth Failure\n---\n" + Line("Error", e) + Line("Method", request.httpMethod)
    + Line("Path", request.path) + Line("Request ID", request.requestID)
  }

  function CodeBlock(body: string): string
  {
    "```\n" + body + "\n```"
  }

  /** The failure notification text: the head, then the body in a code block
      when there is one. */
  function FailureText(request: Request, e: string): string
  {
    FailureHead(request, e) + (if request.body != "" then CodeBlock(request.body) else "")
  }

  /** The notification names the error, the method, the inbound path and the
      request id, and carries the body exactly when there is one. */
  lemma FailureTextContents(request: Request, e: string)
    ensures var t := FailureText(request, e);
      HasPrefix(t, "Cloud Auth Failure\n---\n")
      && Contains(t, Line("Error", e)) && Contains(t, Line("Method", request.httpMethod))
      && Contains(t, Line("Path", request.path)) && Contains(t, Line("Request ID", request.requestID))
      && (request.body == "" ==> t == FailureHead(request, e))
      && (request.body != "" ==> Contains(t, CodeBlock(request.body)))
  {
    var tail := if request.body != "" then CodeBlock(request.body) else "";
    var h := "Cloud Auth Failure\n---\n";
    ContainsEachPart(h, Line("Error", e), Line("Method", request.httpMethod),
      Line("Path", request.path), Line("Request ID", request.requestID), tail);
  }

  /** Each of five pieces after the first occurs in the concatenation. */
  lemma ContainsEachPart(a: string, b: string, c: string, d: string, e: string, f: string)
    ensures var t := a + b + c + d + e + f;
      HasPrefix(t, a) && Contains(t, b) && Contains(t, c) && Contains(t, d) && Contains(t, e) && Contains(t, f)
  {
    var t := a + b + c + d + e + f;
    assert t[..|a|] == a;
    assert t == a + b + (c + d + e + f);
    ContainsInfix(a, b, c + d + e + f);
    assert t == (a + b) + c + (d + e + f);
    ContainsInfix(a + b, c, d + e + f);
    assert t == (a + b + c) + d + (e + f);
    ContainsInfix(a + b + c, d, e + f);
    assert t == (a + b + c + d) + e + f;
    ContainsInfix(a + b + c + d, e, f);
    assert t == (a + b + c + d + e) + f + "";
    ContainsInfix(a + b + c + d + e, f, "");
  }

  /** sendToWebhook: composes the text, growing it by the code block when
      the request has a body, and posts it with a 5 second timeout unless
      building the request fails. Its error is only logged by the caller. */
  method SendToWebhook(config: Config, request: Request, e: string, net: Net) returns (effects: seq<Effect>)
    ensures effects == FailureEffects(config, request, e, net)
  {
    var fullMessage := FailureHead(request, e);
    if request.body != "" {
      fullMessage := fullMessage + CodeBlock(request.body);
    } else {
      assert FailureHead(request, e) + "" == fullMessage;
    }
    var payload := WebhookRequest("Cloud Auth", fullMessage, WebhookIconURL);
    if net.webhookRequestFails {
      return [];
    }
    effects := [PostWebhook(config.mattermostWebhookURL, payload, 5)];
  }

  function FailureEffects(config: Config, request: Request, e: string, net: Net): seq<Effect>
  {
    if net.webhookRequestFails then []
    else [PostWebhook(config.mattermostWebhookURL, WebhookRequest("Cloud Auth", FailureText(request, e), WebhookIconURL), 5)]
  }

  /** processFailedAuth */
  method ProcessFailedAuth(config: Config, request: Request, statusCode: int, e: string, net: Net)
    returns (response: Response, err: Option<string>, effects: seq<Effect>)
    ensures Reply(response, err, effects) == FailedAuth(config, request, statusCode, e, net)
  {
    effects := SendToWebhook(config, request, e, net);
    response := Response(statusCode, map[], ErrorObject(e));
    err := Some(e);
  }

  function FailedAuth(config: Config, request: Request, statusCode: int, e: string, net: Net): Reply
  {
    Reply(Response(statusCode, map[], ErrorObject(e)), Some(e), FailureEffects(config, request, e, net))
  }

  function Outbound(request: Request, net: Net): OutboundRequest
  {
    OutboundRequest(request.httpMethod, net.finalURL, request.body, map["Accept-Encoding" := ""], 10)
  }

  /** validateCloudRequest, as a value: the early-return ladder. The request
      is answered by the cloud server exactly when every check and the call
      succeed; any failure answers {"error": msg} with no header. */
  function Validate(config: Config, request: Request, net: Net): (r: Reply)
    ensures r.err.None? <==>
      net.cloudURLError.None? && net.pathError.None? && IsAuthorized(net.finalEscapedPath)
      && net.newRequestError.None? && net.upstream.Ok? && net.readError.None?
    ensures r.err.Some? ==> r.response.body == ErrorObject(r.err.value) && r.response.headers == map[]
  {
    if net.cloudURLError.Some? then
      FailedAuth(config, request, 500,
        "cloud server URL " + config.cloudServerURL + " is invalid: " + net.cloudURLError.value, net)
    else if net.pathError.Some? then FailedAuth(config, request, 400, net.pathError.value, net)
    else if !IsAuthorized(net.finalEscapedPath) then
      FailedAuth(config, request, 401, net.finalEscapedPath + " is not an authorized path", net)
    else if net.newRequestError.Some? then FailedAuth(config, request, 500, net.newRequestError.value, net)
    else
      var call := [CallCloudServer(Outbound(request, net))];
      if net.upstream.Err? then
        var f := FailedAuth(config, request, 500,
          "failed when making request to cloud server: " + net.upstream.error, net);
        Reply(f.response, f.err, call + f.effects)
      else if net.readError.Some? then
        var f := FailedAuth(config, request, 500,
          "failed to read cloud server response body: " + net.readError.value, net);
        Reply(f.response, f.err, call + f.effects)
      else
        Reply(Response(net.upstream.value.statusCode, map["Content-Type" := "application/json"],
                       Text(net.upstream.value.body)), None, call)
  }

  method ValidateCloudRequest(config: Config, request: Request, net: Net)
    returns (response: Response, err: Option<string>, effects: seq<Effect>)
    ensures Reply(response, err, effects) == Validate(config, request, net)
  {
    if net.cloudURLError.Some? {
      response, err, effects := ProcessFailedAuth(config, request, 500,
        "cloud server URL " + config.cloudServerURL + " is invalid: " + net.cloudURLError.value, net);
      return;
    }
    if net.pathError.Some? {
      response, err, effects := ProcessFailedAuth(config, request, 400, net.pathError.value, net);
      return;
    }
    if !IsAuthorized(net.finalEscapedPath) {
      response, err, effects := ProcessFailedAuth(config, request, 401,
        net.finalEscapedPath + " is not an authorized path", net);
      return;
    }
    if net.newRequestError.Some? {
      response, err, effects := ProcessFailedAuth(config, request, 500, net.newRequestError.value, net);
      return;
    }
    var outbound := OutboundRequest(request.httpMethod, net.finalURL, request.body, map[], 10);
    outbound := outbound.(headers := outbound.headers["Accept-Encoding" := ""]);
    effects := [CallCloudServer(outbound)];
    if net.upstream.Err? {
      var failure;
      response, err, failure := ProcessFailedAuth(config, request, 500,
        "failed when making request to cloud server: " + net.upstream.error, net);
      effects := effects + failure;
      return;
    }
    if net.readError.Some? {
      var failure;
      response, err, failure := ProcessFailedAuth(config, request, 500,
        "failed to read cloud server response body: " + net.readError.value, net);
      effects := effects + failure;
      return;
    }
    response := Response(net.upstream.value.statusCode, map["Content-Type" := "application/json"],
                         Text(net.upstream.value.body));
    err := None;
  }

  /** The failure ladder: the base URL is checked first (500), then the
      path (400), then the allow-list (401); none of these calls the cloud
      server, and each answers {"error": msg} together with that error. */
  lemma FailureLadder(config: Config, request: Request, net: Net)
    ensures var r := Validate(config, request, net);
      var early := net.cloudURLError.Some? || net.pathError.Some? || !IsAuthorized(net.finalEscapedPath);
      (net.cloudURLError.Some? ==> r.response.statusCode == 500)
      && (net.cloudURLError == None && net.pathError.Some? ==> r.response.statusCode == 400 && r.err == net.pathError)
      && (net.cloudURLError == None && net.pathError == None && !IsAuthorized(net.finalEscapedPath) ==>
            r.response.statusCode == 401 && r.err == Some(net.finalEscapedPath + " is not an authorized path"))
      && (early || net.newRequestError.Some? ==> forall i :: 0 <= i < |r.effects| ==> !r.effects[i].CallCloudServer?)
      && (r.err.Some? ==> r.response.body == ErrorObject(r.err.value) && r.response.headers == map[])
  {
  }

  /** Once every check passes, exactly one call goes to the cloud server: the
      inbound method and body, the resolved URL, no inbound header but an
      empty Accept-Encoding, and a 10 second timeout; on success the answer
      is passed through with only a JSON content type added. */
  lemma ForwardShape(config: Config, request: Request, net: Net)
    requires net.cloudURLError == None && net.pathError == None && IsAuthorized(net.finalEscapedPath)
    requires net.newRequestError == None
    ensures var r := Validate(config, request, net);
      r.effects[0] == CallCloudServer(OutboundRequest(request.httpMethod, net.finalURL, request.body,
                                                      map["Accept-Encoding" := ""], 10))
      && (forall i :: 1 <= i < |r.effects| ==> r.effects[i].PostWebhook?)
      && (net.upstream.Ok? && net.readError == None ==>
            r.err == None && |r.effects| == 1
            && r.response == Response(net.upstream.value.statusCode, map["Content-Type" := "application/json"],
                                      Text(net.upstream.value.body)))
  {
  }

  /** Whether the failure notification can be sent never changes the
      response or the error. */
  lemma WebhookOutcomeIrrelevant(config: Config, request: Request, net: Net, fails: bool)
    ensures var r1 := Validate(config, request, net);
      var r2 := Validate(config, request, net.(webhookRequestFails := fails));
      r1.response == r2.response && r1.err == r2.err
  {
    var net2 := net.(webhookRequestFails := fails);
    assert IsAuthorized(net.finalEscapedPath) == IsAuthorized(net2.finalEscapedPath);
  }
}
