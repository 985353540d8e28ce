/** The ELB alarm keeper: a CloudTrail event creating a load balancer puts a
    HealthyHostCount alarm for it, one deleting a load balancer deletes that
    alarm, and any event from another source sweeps every load balancer of
    the account and puts an alarm for each. */
module CreateElbCloudwatchAlarm {
  import opened Common
  import opened CloudWatch

  const ElbSource: string := "aws.elasticloadbalancing"
  const Classic: string := "classic"
  const Network: string := "network"

  /** The name after the first '/' of a load balancer ARN; an ARN without a
      '/' is a name of its own, since IndexByte then gives -1. */
  function LbName(arn: string): (r: string)
    ensures '/' !in arn ==> r == arn
    ensures '/' in arn ==>
      |r| < |arn| && arn == arn[..|arn| - |r| - 1] + "/" + r && '/' !in arn[..|arn| - |r| - 1]
  {
    var i := IndexByte(arn, '/');
    assert i >= 0 ==> arn == arn[..i] + "/" + arn[i + 1..];
    arn[i + 1..]
  }

  /** The name after the last ':' of a target group ARN. */
  function TargetGroupName(arn: string): (r: string)
    ensures ':' !in r
    ensures ':' !in arn ==> r == arn
    ensures ':' in arn ==> |r| < |arn| && arn == arn[..|arn| - |r| - 1] + ":" + r
  {
    var i := LastIndexByte(arn, ':');
    assert i >= 0 ==> arn == arn[..i] + ":" + arn[i + 1..];
    arn[i + 1..]
  }

  /** The load balancer name survives being put after any '/'-free prefix. */
  lemma LbNameOfJoined(prefix: string, name: string)
    requires '/' !in prefix
    ensures LbName(prefix + "/" + name) == name
  {
    var arn := prefix + "/" + name;
    var i := IndexByte(arn, '/');
    assert arn[|prefix|] == '/';
    assert arn[|prefix| + 1..] == name;
  }

  /** The target group name survives being put after any prefix. */
  lemma TargetGroupNameOfJoined(prefix: string, name: string)
    requires ':' !in name
    ensures TargetGroupName(prefix + ":" + name) == name
  {
    var arn := prefix + ":" + name;
    var i := LastIndexByte(arn, ':');
    assert arn[|prefix|] == ':';
    assert arn[|prefix| + 1..] == name;
  }

  /** What an alarm is put for: the load balancer's name, its target group's
      name ("" for a classic one) and its type. */
  datatype AlarmTarget = AlarmTarget(elbName: string, targetGroup: string, lbType: string)

  function AlarmName(elbName: string): string
  {
    "Alarm-" + elbName
  }

  /** The alarm for a target, every field at once (the reference the
      field-by-field construction is held to). */
  function AlarmSpec(t: AlarmTarget, snsTopic: string): MetricAlarm
  {
    MetricAlarm(true, "HealthyHostCount", AlarmName(t.elbName), "LessThanOrEqualToThreshold", 1, 300,
      "Average", 0, "Alarm when having at least one unhealthy host", [snsTopic], [snsTopic],
      if t.lbType == Classic then "AWS/ELB" else if t.lbType == Network then "AWS/NetworkELB" else "AWS/ApplicationELB",
      if t.lbType == Classic then [Dimension("LoadBalancerName", t.elbName)]
      else [Dimension("LoadBalancer", t.elbName), Dimension("TargetGroup", t.targetGroup)])
  }

  /** The namespace and dimensions follow the type: classic load balancers
      live in AWS/ELB and are told apart by name alone, network ones in
      AWS/NetworkELB, and every other type in AWS/ApplicationELB; the latter
      two name the load balancer and then the target group. */
  lemma AlarmSpecByType(t: AlarmTarget, snsTopic: string)
    ensures var a := AlarmSpec(t, snsTopic);
      (a.namespace == "AWS/ELB" <==> t.lbType == Classic)
      && (a.namespace == "AWS/NetworkELB" <==> t.lbType == Network)
      && (a.namespace == "AWS/ApplicationELB" <==> t.lbType != Classic && t.lbType != Network)
      && (t.lbType == Classic ==> a.dimensions == [Dimension("LoadBalancerName", t.elbName)])
      && (t.lbType != Classic ==>
            a.dimensions == [Dimension("LoadBalancer", t.elbName), Dimension("TargetGroup", t.targetGroup)])
  {
  }

  /** Every alarm watches the healthy host count for at most zero over one
      five-minute period and notifies the SNS topic both ways. */
  lemma AlarmSpecFixed(t: AlarmTarget, snsTopic: string)
    ensures var a := AlarmSpec(t, snsTopic);
      a.actionsEnabled && a.metricName == "HealthyHostCount" && a.alarmName == "Alarm-" + t.elbName
      && a.comparisonOperator == "LessThanOrEqualToThreshold" && a.evaluationPeriods == 1
      && a.period == 300 && a.statistic == "Average" && a.threshold == 0
      && a.alarmActions == [snsTopic] && a.okActions == [snsTopic]
  {
  }

  /** A v2 load balancer as the listing returns it. */
  datatype V2LB = V2LB(arn: string, name: string, dnsName: string, lbType: string)

  /** A classic load balancer as the listing returns it. */
  datatype ClassicLB = ClassicLB(name: string, dnsName: string)

  datatype Listing = Listing(v2: seq<V2LB>, classic: seq<ClassicLB>)

  /** AWS as the handler sees it: the error of opening a session, the target
      group ARNs described for each load balancer ARN, the load balancers
      described for each ARN (an ARN missing from these maps describes to
      nothing), the alarm names whose put or delete fails with the given
      text, and the account-wide listing. */
  datatype Cloud = Cloud(
    sessionError: Option<string>,
    targetGroups: map<string, Result<seq<string>>>,
    loadBalancers: map<string, Result<seq<V2LB>>>,
    putErrors: map<string, string>,
    deleteErrors: map<string, string>,
    listing: Result<Listing>)

  function Described<T>(m: map<string, Result<seq<T>>>, arn: string): Result<seq<T>>
  {
    if arn in m then m[arn] else Ok([])
  }

  /** getTargetGroup: the name of the first target group of a load balancer. */
  function GetTargetGroup(cloud: Cloud, lbArn: string): (r: Result<string>)
    ensures r.Ok? <==>
      cloud.sessionError.None? && Described(cloud.targetGroups, lbArn).Ok? && |Described(cloud.targetGroups, lbArn).value| > 0
    ensures r.Ok? ==> r.value == TargetGroupName(Described(cloud.targetGroups, lbArn).value[0])
    ensures cloud.sessionError.None? && Described(cloud.targetGroups, lbArn) == Ok([]) ==>
      r == Err("No target groups found for lb " + lbArn)
  {
    if cloud.sessionError.Some? then Err(cloud.sessionError.value)
    else
      match Described(cloud.targetGroups, lbArn)
      case Err(e) => Err(e)
      case Ok(groups) =>
        if |groups| == 0 then Err("No target groups found for lb " + lbArn)
        else Ok(TargetGroupName(groups[0]))
  }

  /** getV2LB: the session error first, else what describing the ARN gives.
      The model's account maps each ARN to its describe answer (an error such
      as LoadBalancerNotFound is an `Err` entry); an ARN absent from the map
      is taken to describe to no load balancer. */
  function GetV2LB(cloud: Cloud, lbArn: string): (r: Result<seq<V2LB>>)
    ensures cloud.sessionError.Some? ==> r == Err(cloud.sessionError.value)
    ensures r.Ok? ==> cloud.sessionError.None?
    ensures cloud.sessionError.None? && lbArn in cloud.loadBalancers ==> r == cloud.loadBalancers[lbArn]
    ensures cloud.sessionError.None? && lbArn !in cloud.loadBalancers ==> r == Ok([])
  {
    if cloud.sessionError.Some? then Err(cloud.sessionError.value)
    else Described(cloud.loadBalancers, lbArn)
  }

  /** listAllLBs: both listings, or the first error, the session's coming
      before any listing's. */
  function ListAllLBs(cloud: Cloud): (r: Result<Listing>)
    ensures cloud.sessionError.Some? ==> r == Err(cloud.sessionError.value)
    ensures r.Ok? <==> cloud.sessionError.None? && cloud.listing.Ok?
    ensures r.Ok? ==> r.value == cloud.listing.value
  {
    if cloud.sessionError.Some? then Err(cloud.sessionError.value) else cloud.listing
  }

  /** The requests createCloudWatchAlarm sends, and its error. */
  function CreateEffects(env: map<string, string>, cloud: Cloud, t: AlarmTarget): seq<Effect>
  {
    if cloud.sessionError.Some? then [] else [PutMetricAlarm(AlarmSpec(t, Lookup(env, "SNS_TOPIC")))]
  }

  function CreateError(cloud: Cloud, t: AlarmTarget): Option<string>
  {
    if cloud.sessionError.Some? then cloud.sessionError
    else if AlarmName(t.elbName) in cloud.putErrors then Some(cloud.putErrors[AlarmName(t.elbName)])
    else None
  }

  /** createCloudWatchAlarm: the fixed fields first, then the namespace and
      the dimensions by type. */
  method CreateCloudWatchAlarm(env: map<string, string>, cloud: Cloud, elbName: string, targetGroupName: string, lbType: string)
    returns (err: Option<string>, effects: seq<Effect>)
    ensures effects == CreateEffects(env, cloud, AlarmTarget(elbName, targetGroupName, lbType))
    ensures err == CreateError(cloud, AlarmTarget(elbName, targetGroupName, lbType))
  {
    if cloud.sessionError.Some? {
      return cloud.sessionError, [];
    }
    var topic := Lookup(env, "SNS_TOPIC");
    var alarm := MetricAlarm(true, "HealthyHostCount", "Alarm-" + elbName, "LessThanOrEqualToThreshold", 1, 300,
      "Average", 0, "Alarm when having at least one unhealthy host", [topic], [topic], "", []);
    if lbType == "classic" {
      alarm := alarm.(namespace := "AWS/ELB", dimensions := [Dimension("LoadBalancerName", elbName)]);
    } else {
      var typeLB := "AWS/ApplicationELB";
      if lbType == "network" {
        typeLB := "AWS/NetworkELB";
      }
      alarm := alarm.(namespace := typeLB,
                      dimensions := [Dimension("LoadBalancer", elbName), Dimension("TargetGroup", targetGroupName)]);
    }
    effects := [PutMetricAlarm(alarm)];
    err := if alarm.alarmName in cloud.putErrors then Some(cloud.putErrors[alarm.alarmName]) else None;
  }

  function DeleteEffects(cloud: Cloud, elbName: string): seq<Effect>
  {
    if cloud.sessionError.Some? then [] else [DeleteAlarms([AlarmName(elbName)])]
  }

  /** deleteCloudWatchAlarm */
  method DeleteCloudWatchAlarm(cloud: Cloud, elbName: string) returns (err: Option<string>, effects: seq<Effect>)
    ensures effects == DeleteEffects(cloud, elbName)
    ensures err.None? <==> cloud.sessionError.None? && AlarmName(elbName) !in cloud.deleteErrors
    ensures cloud.sessionError.Some? ==> err == cloud.sessionError
    ensures cloud.sessionError.None? && AlarmName(elbName) in cloud.deleteErrors ==>
      err == Some(cloud.deleteErrors[AlarmName(elbName)])
  {
    if cloud.sessionError.Some? {
      return cloud.sessionError, [];
    }
    var name := "Alarm-" + elbName;
    effects := [DeleteAlarms([name])];
    err := if name in cloud.deleteErrors then Some(cloud.deleteErrors[name]) else None;
  }

  /** The put of the sweep for one v2 load balancer: none when its target
      group is not found. */
  function V2Put(env: map<string, string>, cloud: Cloud, lb: V2LB): seq<Effect>
  {
    match GetTargetGroup(cloud, lb.arn)
    case Err(_) => []
    case Ok(tg) => CreateEffects(env, cloud, AlarmTarget(LbName(lb.arn), tg, lb.lbType))
  }

  /** The puts of the sweep over the v2 load balancers, in listing order. */
  function V2Sweep(env: map<string, string>, cloud: Cloud, lbs: seq<V2LB>): seq<Effect>
  {
    if |lbs| == 0 then [] else V2Put(env, cloud, lbs[0]) + V2Sweep(env, cloud, lbs[1..])
  }

  /** The put of the sweep for one classic load balancer. */
  function ClassicPut(env: map<string, string>, cloud: Cloud, lb: ClassicLB): seq<Effect>
  {
    CreateEffects(env, cloud, AlarmTarget(lb.name, "", Classic))
  }

  /** The puts of the sweep over the classic load balancers, in listing order. */
  function ClassicSweep(env: map<string, string>, cloud: Cloud, lbs: seq<ClassicLB>): seq<Effect>
  {
    if |lbs| == 0 then [] else ClassicPut(env, cloud, lbs[0]) + ClassicSweep(env, cloud, lbs[1..])
  }

  function SweepEffects(env: map<string, string>, cloud: Cloud): seq<Effect>
  {
    match ListAllLBs(cloud)
    case Err(_) => []
    case Ok(listing) => V2Sweep(env, cloud, listing.v2) + ClassicSweep(env, cloud, listing.classic)
  }

  /** The body of the sweep's first loop. */
  method SweepV2(env: map<string, string>, cloud: Cloud, loadBalancer: V2LB) returns (effects: seq<Effect>)
    ensures effects == V2Put(env, cloud, loadBalancer)
  {
    var elbArnName := loadBalancer.arn;
    var elbName := LbName(elbArnName);
    var targetGroupName := GetTargetGroup(cloud, elbArnName);
    if targetGroupName.Err? {
      return [];
    }
    var err;
    err, effects := CreateCloudWatchAlarm(env, cloud, elbName, targetGroupName.value, loadBalancer.lbType);
  }

  /** The body of the sweep's second loop. */
  method SweepClassic(env: map<string, string>, cloud: Cloud, loadBalancer: ClassicLB) returns (effects: seq<Effect>)
    ensures effects == ClassicPut(env, cloud, loadBalancer)
  {
    var err;
    err, effects := CreateCloudWatchAlarm(env, cloud, loadBalancer.name, "", "classic");
  }

  /** listELBs: a load balancer whose target group or alarm fails is skipped
      and the sweep goes on; only a failed listing is an error. */
  method ListELBs(env: map<string, string>, cloud: Cloud) returns (err: Option<string>, effects: seq<Effect>)
    ensures effects == SweepEffects(env, cloud)
    ensures err.Some? <==> ListAllLBs(cloud).Err?
  {
    var listed := ListAllLBs(cloud);
    if listed.Err? {
      return Some(listed.error), [];
    }
    var v2Effects := SweepAllV2(env, cloud, listed.value.v2);
    var classicEffects := SweepAllClassic(env, cloud, listed.value.classic);
    effects := v2Effects + classicEffects;
    err := None;
  }

  /** The sweep's first loop: a load balancer whose target group or alarm
      fails is skipped. */
  method SweepAllV2(env: map<string, string>, cloud: Cloud, v2LBS: seq<V2LB>) returns (effects: seq<Effect>)
    ensures effects == V2Sweep(env, cloud, v2LBS)
  {
    effects := [];
    for i := 0 to |v2LBS|
      invariant effects + V2Sweep(env, cloud, v2LBS[i..]) == V2Sweep(env, cloud, v2LBS)
    {
      var put := SweepV2(env, cloud, v2LBS[i]);
      V2SweepStep(env, cloud, v2LBS, i, effects);
      effects := effects + put;
    }
    assert v2LBS[|v2LBS|..] == [];
    assert effects + [] == effects;
  }

  /** One step of the sweep's first loop. */
  lemma V2SweepStep(env: map<string, string>, cloud: Cloud, lbs: seq<V2LB>, i: int, done: seq<Effect>)
    requires 0 <= i < |lbs|
    ensures done + V2Sweep(env, cloud, lbs[i..]) == (done + V2Put(env, cloud, lbs[i])) + V2Sweep(env, cloud, lbs[i + 1..])
  {
    assert lbs[i..][1..] == lbs[i + 1..];
  }

  /** The sweep's second loop: a classic load balancer whose alarm fails is
      skipped. */
  method SweepAllClassic(env: map<string, string>, cloud: Cloud, classicLBs: seq<ClassicLB>) returns (effects: seq<Effect>)
    ensures effects == ClassicSweep(env, cloud, classicLBs)
  {
    effects := [];
    for i := 0 to |classicLBs|
      invariant effects + ClassicSweep(env, cloud, classicLBs[i..]) == ClassicSweep(env, cloud, classicLBs)
    {
      var put := SweepClassic(env, cloud, classicLBs[i]);
      ClassicSweepStep(env, cloud, classicLBs, i, effects);
      effects := effects + put;
    }
    assert classicLBs[|classicLBs|..] == [];
    assert effects + [] == effects;
  }

  /** One step of the sweep's second loop. */
  lemma ClassicSweepStep(env: map<string, string>, cloud: Cloud, lbs: seq<ClassicLB>, i: int, done: seq<Effect>)
    requires 0 <= i < |lbs|
    ensures done + ClassicSweep(env, cloud, lbs[i..]) == (done + ClassicPut(env, cloud, lbs[i])) + ClassicSweep(env, cloud, lbs[i + 1..])
  {
    assert lbs[i..][1..] == lbs[i + 1..];
  }

  /** The sweep's put for one v2 load balancer is its alarm when its target
      group is found, and nothing otherwise. */
  lemma V2PutShape(env: map<string, string>, cloud: Cloud, lb: V2LB)
    requires cloud.sessionError.None?
    ensures GetTargetGroup(cloud, lb.arn).Err? ==> V2Put(env, cloud, lb) == []
    ensures GetTargetGroup(cloud, lb.arn).Ok? ==>
      V2Put(env, cloud, lb)
      == [PutMetricAlarm(AlarmSpec(AlarmTarget(LbName(lb.arn), GetTargetGroup(cloud, lb.arn).value, lb.lbType),
                                   Lookup(env, "SNS_TOPIC")))]
  {
  }

  lemma {:induction false} V2SweepAppend(env: map<string, string>, cloud: Cloud, a: seq<V2LB>, b: seq<V2LB>)
    ensures V2Sweep(env, cloud, a + b) == V2Sweep(env, cloud, a) + V2Sweep(env, cloud, b)
    decreases |a|
  {
    if |a| == 0 {
      assert a + b == b;
    } else {
      assert (a + b)[1..] == a[1..] + b;
      V2SweepAppend(env, cloud, a[1..], b);
    }
  }

  /** The v2 sweep is the listed load balancers' puts laid end to end: the
      put of each one sits between those of the load balancers before and
      after it, so a failing load balancer takes nothing away from the others. */
  lemma V2SweepEach(env: map<string, string>, cloud: Cloud, lbs: seq<V2LB>, i: int)
    requires 0 <= i < |lbs|
    ensures V2Sweep(env, cloud, lbs)
      == V2Sweep(env, cloud, lbs[..i]) + V2Put(env, cloud, lbs[i]) + V2Sweep(env, cloud, lbs[i + 1..])
  {
    var before, rest := lbs[..i], lbs[i..];
    assert lbs == before + rest;
    V2SweepAppend(env, cloud, before, rest);
    assert rest[1..] == lbs[i + 1..];
    var put, after := V2Put(env, cloud, lbs[i]), V2Sweep(env, cloud, lbs[i + 1..]);
    assert V2Sweep(env, cloud, rest) == put + after;
    assert V2Sweep(env, cloud, before) + (put + after) == V2Sweep(env, cloud, before) + put + after;
  }

  /** The classic sweep puts exactly one alarm per listed classic load
      balancer, in listing order, whether or not earlier puts fail. */
  lemma {:induction false} ClassicSweepEach(env: map<string, string>, cloud: Cloud, lbs: seq<ClassicLB>)
    requires cloud.sessionError.None?
    ensures |ClassicSweep(env, cloud, lbs)| == |lbs|
    ensures forall i :: 0 <= i < |lbs| ==>
      [ClassicSweep(env, cloud, lbs)[i]] == ClassicPut(env, cloud, lbs[i])
    decreases |lbs|
  {
    if |lbs| > 0 {
      ClassicSweepEach(env, cloud, lbs[1..]);
      var head, tail := ClassicPut(env, cloud, lbs[0]), ClassicSweep(env, cloud, lbs[1..]);
      assert |head| == 1;
      assert ClassicSweep(env, cloud, lbs) == head + tail;
      forall i | 1 <= i < |lbs|
        ensures [ClassicSweep(env, cloud, lbs)[i]] == ClassicPut(env, cloud, lbs[i])
      {
        assert (head + tail)[i] == tail[i - 1];
        assert lbs[1..][i - 1] == lbs[i];
      }
    }
  }

  /** The load balancer fields of a CloudTrail event the handler reads. */
  datatype LoadBalancerRef = LoadBalancerRef(name: string, arn: string)

  datatype Detail = Detail(
    eventName: string, requestLoadBalancerName: string, requestLoadBalancerArn: string,
    responseLoadBalancers: seq<LoadBalancerRef>, dnsName: string)

  /** A CloudWatch event: its source, and its detail decoded, or None when the
      detail does not decode. */
  datatype Event = Event(source: string, detail: Option<Detail>)

  /** What a CreateLoadBalancer event puts an alarm for, or None when the
      handler gives up: a classic load balancer (the response has a DNS name)
      is named by the request; a v2 one needs a response load balancer, a
      target group and exactly one described load balancer. */
  function CreateTarget(cloud: Cloud, d: Detail): Option<AlarmTarget>
  {
    if d.dnsName != "" then Some(AlarmTarget(d.requestLoadBalancerName, "", Classic))
    else if |d.responseLoadBalancers| == 0 then None
    else
      var arn := d.responseLoadBalancers[0].arn;
      match GetTargetGroup(cloud, arn)
      case Err(_) => None
      case Ok(tg) =>
        match GetV2LB(cloud, arn)
        case Err(_) => None
        case Ok(lbs) => if |lbs| != 1 then None else Some(AlarmTarget(LbName(arn), tg, lbs[0].lbType))
  }

  /** The name whose alarm a DeleteLoadBalancer event deletes. */
  function DeleteName(d: Detail): string
  {
    if d.requestLoadBalancerName == "" then LbName(d.requestLoadBalancerArn) else d.requestLoadBalancerName
  }

  function HandlerEffects(env: map<string, string>, cloud: Cloud, event: Event): seq<Effect>
  {
    if event.source != ElbSource then SweepEffects(env, cloud)
    else if event.detail.None? then []
    else if event.detail.value.eventName == "CreateLoadBalancer" then
      (match CreateTarget(cloud, event.detail.value)
       case None => []
       case Some(t) => CreateEffects(env, cloud, t))
    else if event.detail.value.eventName == "DeleteLoadBalancer" then DeleteEffects(cloud, DeleteName(event.detail.value))
    else []
  }

  /** The name and target group of the load balancer a v2 creation event is
      about, or None with the handler giving up. */
  method V2Target(cloud: Cloud, d: Detail) returns (t: Option<AlarmTarget>)
    requires d.dnsName == ""
    ensures t == CreateTarget(cloud, d)
  {
    if |d.responseLoadBalancers| == 0 {
      return None;
    }
    var elbArnName := d.responseLoadBalancers[0].arn;
    var elbName := LbName(elbArnName);
    var targetGroupName := GetTargetGroup(cloud, elbArnName);
    if targetGroupName.Err? {
      return None;
    }
    var lb := GetV2LB(cloud, elbArnName);
    if lb.Err? {
      return None;
    }
    if |lb.value| == 0 {
      return None;
    }
    if |lb.value| > 1 {
      return None;
    }
    t := Some(AlarmTarget(elbName, targetGroupName.value, lb.value[0].lbType));
  }

  /** handler */
  method Handler(env: map<string, string>, cloud: Cloud, event: Event) returns (effects: seq<Effect>)
    ensures effects == HandlerEffects(env, cloud, event)
  {
    if event.source == "aws.elasticloadbalancing" {
      if event.detail.None? {
        return [];
      }
      var eventDetail := event.detail.value;
      effects := [];
      if eventDetail.eventName == "CreateLoadBalancer" {
        var elbName, targetGroupName := "", "";
        var elbType := "classic";
        if eventDetail.dnsName == "" {
          var target := V2Target(cloud, eventDetail);
          if target.None? {
            return [];
          }
          elbName, targetGroupName, elbType := target.value.elbName, target.value.targetGroup, target.value.lbType;
        } else {
          elbName := eventDetail.requestLoadBalancerName;
        }
        var err;
        err, effects := CreateCloudWatchAlarm(env, cloud, elbName, targetGroupName, elbType);
      } else if eventDetail.eventName == "DeleteLoadBalancer" {
        var elbName;
        if eventDetail.requestLoadBalancerName == "" {
          var elbArnName := eventDetail.requestLoadBalancerArn;
          elbName := elbArnName[IndexByte(elbArnName, '/') + 1..];
        } else {
          elbName := eventDetail.requestLoadBalancerName;
        }
        var err;
        err, effects := DeleteCloudWatchAlarm(cloud, elbName);
      }
      return;
    }
    var err;
    err, effects := ListELBs(env, cloud);
  }

  /** A v2 creation puts an alarm only when the event names a load balancer,
      its target group is found and exactly one load balancer is described;
      the alarm then carries that load balancer's type. */
  lemma CreateNeedsOneDescribedLB(env: map<string, string>, cloud: Cloud, d: Detail)
    requires d.eventName == "CreateLoadBalancer" && d.dnsName == ""
    ensures var r := HandlerEffects(env, cloud, Event(ElbSource, Some(d)));
      r != [] ==>
        |d.responseLoadBalancers| > 0
        && GetTargetGroup(cloud, d.responseLoadBalancers[0].arn).Ok?
        && GetV2LB(cloud, d.responseLoadBalancers[0].arn).Ok?
        && |GetV2LB(cloud, d.responseLoadBalancers[0].arn).value| == 1
        && r == [PutMetricAlarm(AlarmSpec(AlarmTarget(LbName(d.responseLoadBalancers[0].arn),
                                                      GetTargetGroup(cloud, d.responseLoadBalancers[0].arn).value,
                                                      GetV2LB(cloud, d.responseLoadBalancers[0].arn).value[0].lbType),
                                          Lookup(env, "SNS_TOPIC")))]
  {
  }

  /** A creation whose response carries a DNS name is a classic load
      balancer named by the request. */
  lemma CreateClassic(env: map<string, string>, cloud: Cloud, d: Detail)
    requires d.eventName == "CreateLoadBalancer" && d.dnsName != "" && cloud.sessionError.None?
    ensures var r := HandlerEffects(env, cloud, Event(ElbSource, Some(d)));
      |r| == 1 && r[0].PutMetricAlarm? && r[0].alarm.namespace == "AWS/ELB"
      && r[0].alarm.alarmName == "Alarm-" + d.requestLoadBalancerName
      && r[0].alarm.dimensions == [Dimension("LoadBalancerName", d.requestLoadBalancerName)]
  {
  }

  /** A v2 load balancer created and later deleted by ARN alone: the delete
      names the very alarm the create put. */
  lemma CreateDeleteSameAlarm(env: map<string, string>, cloud: Cloud, created: Detail, deleted: Detail)
    requires created.eventName == "CreateLoadBalancer" && created.dnsName == ""
    requires deleted.eventName == "DeleteLoadBalancer" && deleted.requestLoadBalancerName == ""
    requires |created.responseLoadBalancers| > 0 && deleted.requestLoadBalancerArn == created.responseLoadBalancers[0].arn
    requires HandlerEffects(env, cloud, Event(ElbSource, Some(created))) != []
    ensures var put := HandlerEffects(env, cloud, Event(ElbSource, Some(created)));
      var del := HandlerEffects(env, cloud, Event(ElbSource, Some(deleted)));
      put[0].PutMetricAlarm? && del == [DeleteAlarms([put[0].alarm.alarmName])]
  {
  }

  /** Deleting by ARN alone deletes the alarm of the name after the '/'. */
  lemma DeleteByArn(cloud: Cloud, d: Detail, prefix: string, name: string)
    requires d.eventName == "DeleteLoadBalancer" && d.requestLoadBalancerName == "" && cloud.sessionError.None?
    requires '/' !in prefix && d.requestLoadBalancerArn == prefix + "/" + name
    ensures HandlerEffects(map[], cloud, Event(ElbSource, Some(d))) == [DeleteAlarms(["Alarm-" + name])]
  {
    LbNameOfJoined(prefix, name);
  }

  /** Any other source sweeps; any other ELB event name, or a detail that
      does not decode, does nothing. */
  lemma Dispatch(env: map<string, string>, cloud: Cloud, event: Event)
    ensures event.source != ElbSource ==> HandlerEffects(env, cloud, event) == SweepEffects(env, cloud)
    ensures event.source == ElbSource && (event.detail.None? || event.detail.value.eventName !in {"CreateLoadBalancer", "DeleteLoadBalancer"})
      ==> HandlerEffects(env, cloud, event) == []
  {
  }
}
