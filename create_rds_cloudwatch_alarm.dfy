/** The RDS alarm keeper: a CloudTrail event creating a database instance
    puts a DatabaseConnections alarm for its cluster, one deleting an
    instance deletes that alarm, and any event from another source sweeps
    the account's clusters and puts an alarm for each. Multitenant and test
    clusters are filtered out of the events, multitenant ones only out of
    the sweep. */
module CreateRdsCloudwatchAlarm {
  import opened Common
  import opened CloudWatch

  const RdsSource: string := "aws.rds"
  const MultitenantMarker: string := "rds-cluster-multitenant-"
  const TestMarker: string := "test-"

  /** The event filter: a cluster id marked neither multitenant nor test. */
  predicate Watched(id: string)
  {
    !Contains(id, MultitenantMarker) && !Contains(id, TestMarker)
  }

  function AlarmName(dbClusterName: string): string
  {
    "Alarm-RDS-" + dbClusterName
  }

  /** The alarm for a cluster, every field at once. */
  function AlarmSpec(dbClusterName: string, snsTopic: string): MetricAlarm
  {
    MetricAlarm(true, "DatabaseConnections", AlarmName(dbClusterName), "LessThanOrEqualToThreshold", 1, 900,
      "Average", 0, "Alarm when having no DB connections", [snsTopic], [snsTopic], "AWS/RDS",
      [Dimension("DBClusterIdentifier", dbClusterName)])
  }

  /** AWS as the handler sees it: the error of opening a session, the alarm
      names whose put or delete fails with the given text, and the cluster
      listing (the ids, in order). */
  datatype Cloud = Cloud(
    sessionError: Option<string>,
    putErrors: map<string, string>,
    deleteErrors: map<string, string>,
    clusters: Result<seq<string>>)

  function CreateEffects(env: map<string, string>, cloud: Cloud, dbClusterName: string): seq<Effect>
  {
    if cloud.sessionError.Some? then [] else [PutMetricAlarm(AlarmSpec(dbClusterName, Lookup(env, "SNS_TOPIC")))]
  }

  function CreateError(cloud: Cloud, dbClusterName: string): Option<string>
  {
    if cloud.sessionError.Some? then cloud.sessionError
    else if AlarmName(dbClusterName) in cloud.putErrors then Some(cloud.putErrors[AlarmName(dbClusterName)])
    else None
  }

  /** createCloudWatchAlarm */
  method CreateCloudWatchAlarm(env: map<string, string>, cloud: Cloud, dbClusterName: string)
    returns (err: Option<string>, effects: seq<Effect>)
    ensures effects == CreateEffects(env, cloud, dbClusterName)
    ensures err == CreateError(cloud, dbClusterName)
  {
    if cloud.sessionError.Some? {
      return cloud.sessionError, [];
    }
    var topic := Lookup(env, "SNS_TOPIC");
    var newMetricAlarm := MetricAlarm(true, "DatabaseConnections", "Alarm-RDS-" + dbClusterName,
      "LessThanOrEqualToThreshold", 1, 900, "Average", 0, "Alarm when having no DB connections", [topic], [topic],
      "AWS/RDS", [Dimension("DBClusterIdentifier", dbClusterName)]);
    effects := [PutMetricAlarm(newMetricAlarm)];
    var name := newMetricAlarm.alarmName;
    err := if name in cloud.putErrors then Some(cloud.putErrors[name]) else None;
  }

  function DeleteEffects(cloud: Cloud, dbClusterName: string): seq<Effect>
  {
    if cloud.sessionError.Some? then [] else [DeleteAlarms([AlarmName(dbClusterName)])]
  }

  /** deleteCloudWatchAlarm */
  method DeleteCloudWatchAlarm(cloud: Cloud, dbClusterName: string) returns (err: Option<string>, effects: seq<Effect>)
    ensures effects == DeleteEffects(cloud, dbClusterName)
    ensures err.None? <==> cloud.sessionError.None? && AlarmName(dbClusterName) !in cloud.deleteErrors
    ensures cloud.sessionError.Some? ==> err == cloud.sessionError
    ensures cloud.sessionError.None? && AlarmName(dbClusterName) in cloud.deleteErrors ==>
      err == Some(cloud.deleteErrors[AlarmName(dbClusterName)])
  {
    if cloud.sessionError.Some? {
      return cloud.sessionError, [];
    }
    var name := "Alarm-RDS-" + dbClusterName;
    effects := [DeleteAlarms([name])];
    err := if name in cloud.deleteErrors then Some(cloud.deleteErrors[name]) else None;
  }

  /** The puts of the sweep over the listed ids: multitenant ids are passed
      over, and the first put that fails ends the sweep. */
  function SweepFrom(env: map<string, string>, cloud: Cloud, ids: seq<string>): seq<Effect>
  {
    if |ids| == 0 then []
    else if Contains(ids[0], MultitenantMarker) then SweepFrom(env, cloud, ids[1..])
    else CreateEffects(env, cloud, ids[0]) + (if CreateError(cloud, ids[0]).Some? then [] else SweepFrom(env, cloud, ids[1..]))
  }

  function SweepEffects(env: map<string, string>, cloud: Cloud): seq<Effect>
  {
    if cloud.sessionError.Some? || cloud.clusters.Err? then [] else SweepFrom(env, cloud, cloud.clusters.value)
  }

  /** listRDS: only a failed session or listing is reported; a failed put
      ends the sweep with no error. */
  method ListRDS(env: map<string, string>, cloud: Cloud) returns (err: Option<string>, effects: seq<Effect>)
    ensures effects == SweepEffects(env, cloud)
    ensures err.Some? <==> cloud.sessionError.Some? || cloud.clusters.Err?
  {
    if cloud.sessionError.Some? {
      return cloud.sessionError, [];
    }
    if cloud.clusters.Err? {
      return Some(cloud.clusters.error), [];
    }
    var clusters := cloud.clusters.value;
    effects := [];
    for i := 0 to |clusters|
      invariant effects + SweepFrom(env, cloud, clusters[i..]) == SweepFrom(env, cloud, clusters)
    {
      assert clusters[i..][1..] == clusters[i + 1..];
      if !Contains(clusters[i], "rds-cluster-multitenant-") {
        var createErr, put := CreateCloudWatchAlarm(env, cloud, clusters[i]);
        effects := effects + put;
        if createErr.Some? {
          assert effects + [] == effects;
          return None, effects;
        }
      }
    }
    assert clusters[|clusters|..] == [];
    assert effects + [] == effects;
    err := None;
  }

  /** Every put of the sweep is the alarm of a listed id that is not
      multitenant; test ids are swept like any other. */
  lemma {:induction false} SweepOnlyNonMultitenant(env: map<string, string>, cloud: Cloud, ids: seq<string>)
    ensures forall e :: e in SweepFrom(env, cloud, ids) ==>
      exists i :: 0 <= i < |ids| && !Contains(ids[i], MultitenantMarker)
        && e == PutMetricAlarm(AlarmSpec(ids[i], Lookup(env, "SNS_TOPIC")))
    decreases |ids|
  {
    if |ids| > 0 {
      SweepOnlyNonMultitenant(env, cloud, ids[1..]);
      forall e | e in SweepFrom(env, cloud, ids[1..])
        ensures exists i :: (0 <= i < |ids| && !Contains(ids[i], MultitenantMarker)
                             && e == PutMetricAlarm(AlarmSpec(ids[i], Lookup(env, "SNS_TOPIC"))))
      {
        var j :| 0 <= j < |ids[1..]| && !Contains(ids[1..][j], MultitenantMarker)
          && e == PutMetricAlarm(AlarmSpec(ids[1..][j], Lookup(env, "SNS_TOPIC")));
        assert ids[1..][j] == ids[j + 1];
      }
    }
  }

  /** When no put fails, every listed id that is not multitenant gets its
      alarm, test ids included. */
  lemma {:induction false} SweepCoversNonMultitenant(env: map<string, string>, cloud: Cloud, ids: seq<string>, i: int)
    requires cloud.sessionError.None? && 0 <= i < |ids| && !Contains(ids[i], MultitenantMarker)
    requires forall j :: 0 <= j < |ids| ==> AlarmName(ids[j]) !in cloud.putErrors
    ensures PutMetricAlarm(AlarmSpec(ids[i], Lookup(env, "SNS_TOPIC"))) in SweepFrom(env, cloud, ids)
    decreases i
  {
    if i > 0 {
      assert ids[1..][i - 1] == ids[i];
      assert forall j :: 0 <= j < |ids[1..]| ==> ids[1..][j] == ids[j + 1];
      SweepCoversNonMultitenant(env, cloud, ids[1..], i - 1);
    }
  }

  /** The first put that fails ends the sweep: nothing after that id is
      attempted. */
  lemma {:induction false} SweepStopsAtFailure(env: map<string, string>, cloud: Cloud, ids: seq<string>, i: int)
    requires cloud.sessionError.None? && 0 <= i < |ids| && !Contains(ids[i], MultitenantMarker)
    requires AlarmName(ids[i]) in cloud.putErrors
    ensures SweepFrom(env, cloud, ids) == SweepFrom(env, cloud, ids[..i + 1])
    decreases i
  {
    if i == 0 {
      assert ids[..1][1..] == [];
    } else {
      assert ids[1..][i - 1] == ids[i];
      SweepStopsAtFailure(env, cloud, ids[1..], i - 1);
      assert ids[..i + 1][1..] == ids[1..][..i];
      assert ids[..i + 1][0] == ids[0];
    }
  }

  /** The fields of the CloudTrail event the handler reads. */
  datatype Detail = Detail(eventName: string, requestClusterID: string, responseClusterID: string)

  /** A CloudWatch event: its source, and its detail decoded, or None when the
      detail does not decode. */
  datatype Event = Event(source: string, detail: Option<Detail>)

  function HandlerEffects(env: map<string, string>, cloud: Cloud, event: Event): seq<Effect>
  {
    if event.source != RdsSource then SweepEffects(env, cloud)
    else if event.detail.None? then []
    else
      var d := event.detail.value;
      if d.eventName == "CreateDBInstance" then
        (if Watched(d.requestClusterID) then CreateEffects(env, cloud, d.requestClusterID) else [])
      else if d.eventName == "DeleteDBInstance" then
        (if Watched(d.requestClusterID) then DeleteEffects(cloud, d.responseClusterID) else [])
      else []
  }

  /** handler */
  method Handler(env: map<string, string>, cloud: Cloud, event: Event) returns (effects: seq<Effect>)
    ensures effects == HandlerEffects(env, cloud, event)
  {
    if event.source == "aws.rds" {
      if event.detail.None? {
        return [];
      }
      var eventDetail := event.detail.value;
      effects := [];
      var err;
      if eventDetail.eventName == "CreateDBInstance" {
        if !Contains(eventDetail.requestClusterID, "rds-cluster-multitenant-")
           && !Contains(eventDetail.requestClusterID, "test-") {
          err, effects := CreateCloudWatchAlarm(env, cloud, eventDetail.requestClusterID);
        }
      } else if eventDetail.eventName == "DeleteDBInstance" {
        if !Contains(eventDetail.requestClusterID, "rds-cluster-multitenant-")
           && !Contains(eventDetail.requestClusterID, "test-") {
          err, effects := DeleteCloudWatchAlarm(cloud, eventDetail.responseClusterID);
        }
      }
      return;
    }
    var err;
    err, effects := ListRDS(env, cloud);
  }

  /** A creation event puts the alarm of the requested cluster exactly when
      that cluster is watched; a deletion deletes the alarm of the cluster
      named in the response, exactly when the requested one is watched. */
  lemma EventFilter(env: map<string, string>, cloud: Cloud, d: Detail)
    requires cloud.sessionError.None?
    ensures d.eventName == "CreateDBInstance" ==>
      HandlerEffects(env, cloud, Event(RdsSource, Some(d)))
      == (if Watched(d.requestClusterID) then [PutMetricAlarm(AlarmSpec(d.requestClusterID, Lookup(env, "SNS_TOPIC")))] else [])
    ensures d.eventName == "DeleteDBInstance" ==>
      HandlerEffects(env, cloud, Event(RdsSource, Some(d)))
      == (if Watched(d.requestClusterID) then [DeleteAlarms(["Alarm-RDS-" + d.responseClusterID])] else [])
  {
  }

  /** A cluster id with either marker anywhere in it is never alarmed by an
      event. */
  lemma MarkedIdsSkipped(env: map<string, string>, cloud: Cloud, pre: string, post: string, mark: string, name: string)
    requires mark == MultitenantMarker || mark == TestMarker
    requires name == "CreateDBInstance" || name == "DeleteDBInstance"
    ensures HandlerEffects(env, cloud, Event(RdsSource, Some(Detail(name, pre + mark + post, pre + mark + post)))) == []
  {
    ContainsInfix(pre, mark, post);
  }

  /** The create and delete paths name a cluster's alarm alike. */
  lemma CreateDeleteSameAlarm(env: map<string, string>, cloud: Cloud, id: string)
    requires cloud.sessionError.None? && Watched(id)
    ensures var put := HandlerEffects(env, cloud, Event(RdsSource, Some(Detail("CreateDBInstance", id, id))));
      var del := HandlerEffects(env, cloud, Event(RdsSource, Some(Detail("DeleteDBInstance", id, id))));
      |put| == 1 && put[0].PutMetricAlarm? && del == [DeleteAlarms([put[0].alarm.alarmName])]
  {
  }

  /** The deletion filter reads the request but names the alarm from the
      response: a clean request id lets the alarm of a test cluster go. */
  lemma DeleteFilterReadsRequest(cloud: Cloud)
    requires cloud.sessionError.None?
    ensures HandlerEffects(map[], cloud, Event(RdsSource, Some(Detail("DeleteDBInstance", "db-1", "test-db"))))
      == [DeleteAlarms(["Alarm-RDS-test-db"])]
  {
    ShorterNotContained("db-1", TestMarker);
    ShorterNotContained("db-1", MultitenantMarker);
    assert AlarmName("test-db") == "Alarm-RDS-test-db";
  }

  /** The sweep, unlike the events, alarms test clusters. */
  lemma SweepAlarmsTestClusters(env: map<string, string>, cloud: Cloud)
    requires cloud.sessionError.None? && cloud.clusters == Ok(["test-db"])
    ensures SweepEffects(env, cloud) == [PutMetricAlarm(AlarmSpec("test-db", Lookup(env, "SNS_TOPIC")))]
  {
    ShorterNotContained("test-db", MultitenantMarker);
    var ids := ["test-db"];
    assert ids[1..] == [] && SweepFrom(env, cloud, []) == [];
    assert SweepFrom(env, cloud, ids) == CreateEffects(env, cloud, "test-db") + [];
  }

  /** Any other source sweeps; any other RDS event name, or a detail that
      does not decode, does nothing. */
  lemma Dispatch(env: map<string, string>, cloud: Cloud, event: Event)
    ensures event.source != RdsSource ==> HandlerEffects(env, cloud, event) == SweepEffects(env, cloud)
    ensures event.source == RdsSource && (event.detail.None? || event.detail.value.eventName !in {"CreateDBInstance", "DeleteDBInstance"})
      ==> HandlerEffects(env, cloud, event) == []
  {
  }
}
