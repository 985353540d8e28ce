# Mattermost cloud Lambdas, modelled in Dafny

This project models the AWS Lambda handlers that Mattermost runs around its
cloud. They are small Go programs, one per directory of the repository,
and each reacts to one kind of event:

- webhook relays: the cloud provisioner, the Elrond release-ring manager and
  GitLab pipelines, posted to Mattermost and raised on PagerDuty or OpsGenie;
- SNS relays: CloudWatch events, ELB CloudWatch alarms and RDS failover
  events;
- alarm keepers that put or delete CloudWatch alarms for load balancers and
  RDS clusters;
- janitors and guards: the AMI janitor (deckhand), the subnet IP monitor,
  the bind-server network attachment hook, the schema-permission granter,
  the cloud-server authorisation proxy, and the CloudWatch Logs shipper
  lambda-promtail.

Each handler is a `method` in its own module. It returns the trace of calls
it makes to the outside world as a sequence of `Effect` values. What AWS,
PagerDuty, OpsGenie, the databases or the process environment answer is an
input, given as a datatype value: maps from names to errors, listings as
`Result` values, and functions indexed by attempt number for the retried
calls. The loops of the Go code are `while`/`for` loops with invariants.
The Go map ranges, whose order is unspecified, are `:|` loops, and their
results are stated for every possible order. Each method is proved equal to
a specification function, and the lemmas beside it state what the handler
promises: routing, filters, the stop-at-first-failure behaviour, retries,
round trips and the shape of every message.

Shared modules:

- `Common`: Option/Result, `os.Getenv` as a map lookup, and the `strings`
  functions the handlers use.
- `Strconv`: Go's `strconv.Atoi` and `Itoa`.
- `Notification`: the Mattermost attachment, a class whose `AddField`
  appends a field. It also holds the PagerDuty and OpsGenie payloads and
  the ExtraData rendering loops.
- `CloudWatch`: the alarm and the two alarm requests.

## Model

| member | source | states |
|---|---|---|
| Strconv.AtoiItoa | account-alerts/main.go:58 | Atoi reads back, with no error, every int64 that Itoa writes in decimal |
| Strconv.AtoiRejectsNonNumeric | account-alerts/main.go:58-61 | Atoi reports an error for text holding a character that is neither a digit nor a leading sign |
| Notification.Attachment.constructor | provisioner-notification/main.go:97-99 | a new attachment has the given colour, no title and no fields |
| Notification.Attachment.AddField | provisioner-notification/main.go:263-266 | AddField appends the field at the end and changes no other field of the attachment |
| Notification.KeyOrderLength | provisioner-notification/main.go:120-122 | a range over a map visits as many keys as the map holds |
| Notification.ExtraDataLines | provisioner-notification/main.go:118-124 | the ExtraData loop visits every key exactly once, in some order, and renders one "key: value" line per key in that order |
| Notification.ExtraDataMentionsEveryEntry | provisioner-notification/main.go:118-124 | the "Extra Data" text contains the line of every ExtraData entry, whatever the range order |
| Notification.MergeDetails | provisioner-notification/main.go:310-312 | copying ExtraData over the fixed details gives their union, and an ExtraData key replaces a fixed key of the same name |
| Notification.AddExtraData | provisioner-notification/main.go:118-124 | the "Extra Data" field is appended exactly when there is extra data, and colour and title are unchanged |
| ProvisionerNotification.BuildClusterAttachment | provisioner-notification/main.go:97-127 | the cluster attachment holds the id, type, states, timestamp and extra-data fields in that order, for some range order of ExtraData |
| ProvisionerNotification.BuildInstallationAttachment | provisioner-notification/main.go:163-195 | the installation attachment has the same fields, headed by the no-compatible-clusters marker for that state |
| ProvisionerNotification.SendPagerDutyNotification | provisioner-notification/main.go:285-330 | the environment is checked first, then the integration key; the event is PagerDuty's critical trigger with the fixed details and ExtraData merged over them |
| ProvisionerNotification.PagerDutyEventShape | provisioner-notification/main.go:297-318 | a sent event is a single critical trigger routed by the integration key; its details are the five fixed keys and the ExtraData keys, and ExtraData values win |
| ProvisionerNotification.HandleClusterWebhook | provisioner-notification/main.go:77-141 | a configuration error or a wrong payload type is returned with no call made; otherwise the result is the error of the normal webhook post |
| ProvisionerNotification.ClusterRouting | provisioner-notification/main.go:101-140 | the message is red exactly for the five cluster failure states; a failure also goes to the alert webhook first and (with a key) to PagerDuty; the normal webhook is always posted last |
| ProvisionerNotification.HandleInstallationWebhook | provisioner-notification/main.go:143-224 | the configuration checks and the type check come before any call; past them the outcome is that of the installation routing |
| ProvisionerNotification.InstallationRouting | provisioner-notification/main.go:167-223 | a failure posts only to the alert webhook, then to PagerDuty only if that post succeeded; any other state posts to the normal webhook only on creation-requested or in-progress to stable |
| ProvisionerNotification.ProcessWebhookEvent | provisioner-notification/main.go:53-75 | a payload that cannot be re-encoded, or one of any other type, is dropped; cluster and installation payloads get their handlers' calls |
| ProvisionerNotification.Handler | provisioner-notification/main.go:33-51 | an empty or undecodable body answers 400 with an error body and makes no call; a decoded payload always answers 200 |
| ElrondNotification.BuildRingAttachment | elrond-notification/main.go:89-120 | the ring attachment holds the id, type, states, timestamp and extra-data fields in order, for some range order of ExtraData |
| ElrondNotification.SendOpsGenieNotification | elrond-notification/main.go:195-247 | the environment is checked first, then the API key and team, then the client; the alert is created from the payload |
| ElrondNotification.OpsGenieAlertShape | elrond-notification/main.go:201-238 | an alert is created exactly when environment, key, team and client are all present; it goes to the team's schedule, is tagged Elrond and the type, has priority P2, and takes every ExtraData value; no alert always means an error |
| ElrondNotification.HandleRingWebhook | elrond-notification/main.go:73-134 | a missing environment or webhook variable is returned with no call made; otherwise the result is the error of the normal webhook post |
| ElrondNotification.RingRouting | elrond-notification/main.go:93-133 | the message is red exactly for the seven ring failure states, which also go to the alert webhook first and may go to OpsGenie; the normal webhook is always posted last, as "Elrond-" plus the environment |
| ElrondNotification.ProcessWebhookEvent | elrond-notification/main.go:54-71 | only ring payloads that can be re-encoded are handled |
| ElrondNotification.Handler | elrond-notification/main.go:34-52 | an empty or undecodable body answers 400 and makes no call; a decoded payload answers 200, and one of another type, one that fails to re-encode, or one met by a configuration error makes no call |
| GitlabWebhook.FirstManual | gitlab-webhook/main.go:63-64 | the index of the first build that is both manual by status and flagged manual, or none exactly when no build is |
| GitlabWebhook.HandlePipelineEvent | gitlab-webhook/main.go:61-71 | the loop asks for approval of the first build awaiting it, if any, and stops there |
| GitlabWebhook.FirstManualBuildOnly | gitlab-webhook/main.go:63-70 | at most one approval is requested, for the first manual build, with the job-URL message; none when no build awaits approval |
| GitlabWebhook.LaterBuildsIgnored | gitlab-webhook/main.go:68 | builds after the first manual one change nothing |
| GitlabWebhook.Handler | gitlab-webhook/main.go:29-59 | the handler answers and notifies as its routing specification says, whose cases Dispatch states |
| GitlabWebhook.Dispatch | gitlab-webhook/main.go:29-78 | 200 exactly for a non-empty body with the Pipeline Hook header that decodes; everything else is a 400 with an error body and no call |
| AccountAlerts.ValidateAndGetEnvVars | account-alerts/main.go:51-65 | an unset variable is the not-set error; otherwise the threshold is Atoi's value, and it fails exactly when Atoi does |
| AccountAlerts.ThresholdReadsBack | account-alerts/main.go:51-65 | any int64 written in decimal is accepted as the threshold |
| AccountAlerts.NonNumericThresholdRefused | account-alerts/main.go:58-61 | a value with a non-digit (other than a leading sign) is refused |
| AccountAlerts.AlertLowSubnets | account-alerts/main.go:105-113 | the subnet loop alerts, in listing order, on the subnets whose free addresses are below the threshold |
| AccountAlerts.CheckProvisioningSubnetIPLimits | account-alerts/main.go:68-117 | a session or VPC listing error ends the check with no alert; otherwise the unavailable VPCs are checked in order, up to the first failed subnet listing, whose error is returned |
| AccountAlerts.SubnetAlertsExactly | account-alerts/main.go:105-113 | exactly the subnets strictly below the threshold are reported |
| AccountAlerts.AtThresholdNotReported | account-alerts/main.go:106 | a subnet exactly at the threshold is not reported |
| AccountAlerts.ListingFailureAborts | account-alerts/main.go:92-104 | a failed subnet listing ends the check with its error, after the alerts of the earlier VPCs |
| AccountAlerts.EveryVpcChecked | account-alerts/main.go:90-116 | with every listing answered, every low subnet of every VPC is reported and the check succeeds |
| AccountAlerts.AllListedSucceeds | account-alerts/main.go:90-116 | with every listing answered the check returns no error |
| AccountAlerts.Handler | account-alerts/main.go:31-48 | a validation failure notifies and exits with status 1; otherwise the check runs and its error is dropped |
| AccountAlerts.ExitPath | account-alerts/main.go:33-41 | the job exits with status 1 exactly when validation fails, right after the error notification, and the failure trace does not depend on the EC2 answers |
| AccountAlerts.OnlyAlerts | account-alerts/main.go:105-113 | the check sends nothing but subnet alerts |
| CloudwatchEventAlerts.EventAttachment | cloudwatch-event-alerts/main.go:58-70 | the event attachment has the given colour, no title and its five fields |
| CloudwatchEventAlerts.SendMattermostNotification | cloudwatch-event-alerts/main.go:58-81 | the attachment is built field by field and posted only when MATTERMOST_HOOK is set |
| CloudwatchEventAlerts.SendPagerDutyNotification | cloudwatch-event-alerts/main.go:83-120 | a trigger is sent only when the integration key is set |
| CloudwatchEventAlerts.ProcessRecord | cloudwatch-event-alerts/main.go:46-54 | one record gives a red post and, outside test environments, the PagerDuty trigger |
| CloudwatchEventAlerts.Handler | cloudwatch-event-alerts/main.go:39-56 | records are handled in order, each as ProcessRecord says, until the first that does not decode |
| CloudwatchEventAlerts.Decoded | cloudwatch-event-alerts/main.go:40-45 | the number of records handled: each before it decodes, and the one at it (if any) does not |
| CloudwatchEventAlerts.BatchExpected | cloudwatch-event-alerts/main.go:39-120 | every call is a red five-field post to the hook or a trigger gated on the environment and the integration key |
| CloudwatchEventAlerts.BatchPostCount | cloudwatch-event-alerts/main.go:39-120 | each handled record posts exactly once when the hook is set, and nothing is posted otherwise |
| CloudwatchEventAlerts.DecodeErrorStopsBatch | cloudwatch-event-alerts/main.go:42-45 | a record that does not decode ends the batch |
| CloudwatchEventAlerts.PagerGating | cloudwatch-event-alerts/main.go:50-53 | PagerDuty is triggered exactly when ENVIRONMENT is set, is not "test", and a key is configured |
| AlertElbCloudwatchAlarm.DimensionLines | alert-elb-cloudwatch-alarm/main.go:95-98 | one "Name: Value" line per dimension, in trigger order |
| AlertElbCloudwatchAlarm.RenderDimensions | alert-elb-cloudwatch-alarm/main.go:95-99 | the dimensions loop joins those lines with newlines |
| AlertElbCloudwatchAlarm.DimensionLinesAppend | alert-elb-cloudwatch-alarm/main.go:96-98 | the lines of two dimension lists laid end to end are the lines of each |
| AlertElbCloudwatchAlarm.BuildAlarmAttachment | alert-elb-cloudwatch-alarm/main.go:76-99 | the attachment is the reference one, built field by field |
| AlertElbCloudwatchAlarm.AddAlarmFields | alert-elb-cloudwatch-alarm/main.go:85-93 | the nine fields before Dimensions are appended in order, after any already there, and colour and title are kept |
| AlertElbCloudwatchAlarm.AlarmAttachmentShape | alert-elb-cloudwatch-alarm/main.go:77-99 | green exactly for OK and red otherwise; ten fields, the last being the Dimensions with every dimension's line |
| AlertElbCloudwatchAlarm.SendMattermostNotification | alert-elb-cloudwatch-alarm/main.go:75-111 | the alarm is posted only when MATTERMOST_HOOK is set |
| AlertElbCloudwatchAlarm.SendPagerDutyNotification | alert-elb-cloudwatch-alarm/main.go:113-155 | a trigger with the alarm's summary and detail text is sent only with an integration key |
| AlertElbCloudwatchAlarm.ListAllIncidents | alert-elb-cloudwatch-alarm/main.go:167-193 | pages of 25 are listed from offset 0 until one fails or the offset plus the limit reaches the total, and their incidents are collected in order |
| AlertElbCloudwatchAlarm.PagingStep | alert-elb-cloudwatch-alarm/main.go:169-192 | a failing page ends paging with nothing collected, the page reaching the total ends it with that page, any other page is followed by the next page at offset plus 25 |
| AlertElbCloudwatchAlarm.CollectedAll | alert-elb-cloudwatch-alarm/main.go:175-193 | with no failing page, paging collects every incident from its offset on, in order |
| AlertElbCloudwatchAlarm.CollectedUpToFailure | alert-elb-cloudwatch-alarm/main.go:177-181 | a failing page ends paging, and the incidents of the pages before it are kept |
| AlertElbCloudwatchAlarm.ListCallsOffsets | alert-elb-cloudwatch-alarm/main.go:169-192 | the pages requested are at offsets 0, 25, 50 and so on, 25 at a time |
| AlertElbCloudwatchAlarm.ResolveMatching | alert-elb-cloudwatch-alarm/main.go:195-211 | the incidents whose description is the alarm's summary are resolved in order, up to the first that fails |
| AlertElbCloudwatchAlarm.ResolvedOnlyMatching | alert-elb-cloudwatch-alarm/main.go:198-206 | only incidents whose description is the alarm's summary are resolved, on behalf of the configured email |
| AlertElbCloudwatchAlarm.ResolveStopsAtFailure | alert-elb-cloudwatch-alarm/main.go:207-210 | nothing after a failing resolution is attempted |
| AlertElbCloudwatchAlarm.ClosePagerDutyIncidents | alert-elb-cloudwatch-alarm/main.go:157-211 | without an API key nothing is called; otherwise paging, then matching resolutions |
| AlertElbCloudwatchAlarm.ProcessRecord | alert-elb-cloudwatch-alarm/main.go:61-70 | one alarm gives the post, then the trigger or the closing as the state says |
| AlertElbCloudwatchAlarm.Handler | alert-elb-cloudwatch-alarm/main.go:51-73 | records are handled in order, each as ProcessRecord says, until the first that does not decode |
| AlertElbCloudwatchAlarm.DecodeErrorStopsBatch | alert-elb-cloudwatch-alarm/main.go:56-59 | a record that does not decode ends the batch |
| AlertElbCloudwatchAlarm.PagerRouting | alert-elb-cloudwatch-alarm/main.go:63-70 | in a test environment only Mattermost is posted to; otherwise a non-OK alarm only triggers and an OK one only lists and resolves, starting at offset 0 |
| RdsClusterEvents.KindOf | rds-cluster-events/main.go:45-59 | a failover start is recognised by its prefix first, a completion by its own prefix next |
| RdsClusterEvents.PrefixesDisjoint | rds-cluster-events/main.go:45-52 | no message has both prefixes, so the order of the tests never matters |
| RdsClusterEvents.SendMattermostNotification | rds-cluster-events/main.go:63-82 | the failover message is posted only when MATTERMOST_HOOK is set |
| RdsClusterEvents.SendOpsGenieNotification | rds-cluster-events/main.go:84-111 | the alert is created only with key, team and client |
| RdsClusterEvents.CloseOpsGenieAlert | rds-cluster-events/main.go:113-145 | with key and client the alerts tagged with the message are listed, then closed |
| RdsClusterEvents.CloseAlerts | rds-cluster-events/main.go:135-144 | the listed alerts are closed in order and the first close that fails is the last call |
| RdsClusterEvents.CloseCallsPrefix | rds-cluster-events/main.go:135-144 | the closes follow the listing in order and stop right after the first failure; all are closed when none fails |
| RdsClusterEvents.CloseQueryMissesCreatedTags | rds-cluster-events/main.go:98-129 | the tag the close path queries is never one the create path sets |
| RdsClusterEvents.ProcessRecord | rds-cluster-events/main.go:45-59 | one event gives the calls its kind calls for |
| RdsClusterEvents.Handler | rds-cluster-events/main.go:36-61 | records are handled in order, each as ProcessRecord says, until the first that does not decode |
| RdsClusterEvents.DecodeErrorStopsBatch | rds-cluster-events/main.go:40-43 | a record that does not decode ends the batch |
| RdsClusterEvents.Routing | rds-cluster-events/main.go:36-61 | a start is red and may create, a completion is green and may list and close, anything else does nothing; OpsGenie only outside tests |
| CreateElbCloudwatchAlarm.LbName | create-elb-cloudwatch-alarm/main.go:86 | the text after the first '/', or the whole ARN when it has none |
| CreateElbCloudwatchAlarm.TargetGroupName | create-elb-cloudwatch-alarm/main.go:273 | the text after the last ':', holding no ':' itself |
| CreateElbCloudwatchAlarm.LbNameOfJoined | create-elb-cloudwatch-alarm/main.go:86 | a name put after a '/'-free prefix is read back |
| CreateElbCloudwatchAlarm.TargetGroupNameOfJoined | create-elb-cloudwatch-alarm/main.go:273 | a ':'-free name put after any prefix is read back |
| CreateElbCloudwatchAlarm.AlarmSpecByType | create-elb-cloudwatch-alarm/main.go:208-223 | classic load balancers use AWS/ELB and their name; network ones use AWS/NetworkELB, others AWS/ApplicationELB, both with load balancer and target group |
| CreateElbCloudwatchAlarm.AlarmSpecFixed | create-elb-cloudwatch-alarm/main.go:194-206 | every alarm watches HealthyHostCount at most 0 over one 300-second period, named Alarm- plus the name, notifying the topic both ways |
| CreateElbCloudwatchAlarm.ListAllLBs | create-elb-cloudwatch-alarm/main.go:278-312 | a session error is returned; otherwise the listing succeeds exactly when both describes do, and gives both lists |
| CreateElbCloudwatchAlarm.GetV2LB | create-elb-cloudwatch-alarm/main.go:314-330 | a session error is returned; otherwise the ARN's own describe answer, its load balancers or its error, is returned, and an ARN absent from the model's account map gives no load balancer |
| CreateElbCloudwatchAlarm.GetTargetGroup | create-elb-cloudwatch-alarm/main.go:254-276 | the name of the first target group; the session or describe error; or the no-target-groups error |
| CreateElbCloudwatchAlarm.CreateCloudWatchAlarm | create-elb-cloudwatch-alarm/main.go:187-233 | the put is the reference alarm for the target, and its error is the session's or the put's |
| CreateElbCloudwatchAlarm.DeleteCloudWatchAlarm | create-elb-cloudwatch-alarm/main.go:235-252 | the alarm named Alarm- plus the name is deleted; the call fails exactly on a session or delete error |
| CreateElbCloudwatchAlarm.SweepV2 | create-elb-cloudwatch-alarm/main.go:157-173 | the first loop's body puts the alarm of one v2 load balancer |
| CreateElbCloudwatchAlarm.SweepClassic | create-elb-cloudwatch-alarm/main.go:175-182 | the second loop's body puts the alarm of one classic load balancer |
| CreateElbCloudwatchAlarm.SweepAllV2 | create-elb-cloudwatch-alarm/main.go:157-173 | the first loop visits the v2 load balancers in listing order, each as SweepV2 says |
| CreateElbCloudwatchAlarm.SweepAllClassic | create-elb-cloudwatch-alarm/main.go:175-182 | the second loop visits the classic load balancers in listing order, one put each |
| CreateElbCloudwatchAlarm.ListELBs | create-elb-cloudwatch-alarm/main.go:148-185 | a failed listing puts nothing; otherwise every v2 load balancer, then every classic one, is swept in listing order; it fails exactly when the listing does |
| CreateElbCloudwatchAlarm.V2PutShape | create-elb-cloudwatch-alarm/main.go:158-168 | a v2 load balancer gets its alarm when its target group is found, and nothing otherwise |
| CreateElbCloudwatchAlarm.V2SweepAppend | create-elb-cloudwatch-alarm/main.go:157-173 | the sweep of two lists laid end to end is their sweeps laid end to end |
| CreateElbCloudwatchAlarm.V2SweepEach | create-elb-cloudwatch-alarm/main.go:163-172 | each load balancer's put sits between those of its neighbours, so a failure skips only that one |
| CreateElbCloudwatchAlarm.ClassicSweepEach | create-elb-cloudwatch-alarm/main.go:175-182 | exactly one alarm per classic load balancer, in listing order, whatever failed before |
| CreateElbCloudwatchAlarm.V2Target | create-elb-cloudwatch-alarm/main.go:83-111 | the name, target group and type of a created v2 load balancer, or giving up |
| CreateElbCloudwatchAlarm.Handler | create-elb-cloudwatch-alarm/main.go:66-146 | the handler makes the calls its event specification gives, whose cases Dispatch and the Create and Delete lemmas state |
| CreateElbCloudwatchAlarm.CreateNeedsOneDescribedLB | create-elb-cloudwatch-alarm/main.go:83-115 | a v2 creation puts an alarm only with a load balancer in the response, a target group and exactly one described load balancer, whose type it takes |
| CreateElbCloudwatchAlarm.CreateClassic | create-elb-cloudwatch-alarm/main.go:116-120 | a creation with a DNS name puts the classic alarm named by the request |
| CreateElbCloudwatchAlarm.CreateDeleteSameAlarm | create-elb-cloudwatch-alarm/main.go:85-133 | deleting a v2 load balancer by its ARN deletes the very alarm its creation put |
| CreateElbCloudwatchAlarm.DeleteByArn | create-elb-cloudwatch-alarm/main.go:127-133 | deleting by ARN alone deletes the alarm of the name after the '/' |
| CreateElbCloudwatchAlarm.Dispatch | create-elb-cloudwatch-alarm/main.go:69-145 | any other source sweeps; another ELB event, or an undecodable detail, does nothing |
| CreateRdsCloudwatchAlarm.CreateCloudWatchAlarm | create-rds-cloudwatch-alarm/main.go:105-145 | the put is the cluster's reference alarm, and its error is the session's or the put's |
| CreateRdsCloudwatchAlarm.DeleteCloudWatchAlarm | create-rds-cloudwatch-alarm/main.go:147-164 | the alarm named Alarm-RDS- plus the cluster is deleted; the call fails exactly on a session or delete error |
| CreateRdsCloudwatchAlarm.ListRDS | create-rds-cloudwatch-alarm/main.go:166-193 | the listed clusters that are not multitenant get their alarms in order, up to the first failed put; only a failed session or listing is an error |
| CreateRdsCloudwatchAlarm.SweepOnlyNonMultitenant | create-rds-cloudwatch-alarm/main.go:181-190 | every put of the sweep is the alarm of a listed cluster that is not multitenant |
| CreateRdsCloudwatchAlarm.SweepCoversNonMultitenant | create-rds-cloudwatch-alarm/main.go:181-190 | when no put fails, every listed cluster that is not multitenant gets its alarm, test clusters included |
| CreateRdsCloudwatchAlarm.SweepStopsAtFailure | create-rds-cloudwatch-alarm/main.go:185-188 | the first failed put ends the sweep |
| CreateRdsCloudwatchAlarm.Handler | create-rds-cloudwatch-alarm/main.go:54-103 | the handler makes the calls its event specification gives, whose cases Dispatch and EventFilter state |
| CreateRdsCloudwatchAlarm.EventFilter | create-rds-cloudwatch-alarm/main.go:66-94 | a creation alarms the requested cluster exactly when it is watched; a deletion deletes the response cluster's alarm exactly when the requested one is watched |
| CreateRdsCloudwatchAlarm.MarkedIdsSkipped | create-rds-cloudwatch-alarm/main.go:69-70 | an id with either marker anywhere in it is never alarmed by an event |
| CreateRdsCloudwatchAlarm.CreateDeleteSameAlarm | create-rds-cloudwatch-alarm/main.go:112-156 | create and delete name a cluster's alarm alike |
| CreateRdsCloudwatchAlarm.DeleteFilterReadsRequest | create-rds-cloudwatch-alarm/main.go:83-87 | the delete filter reads the request id but the alarm is named from the response id |
| CreateRdsCloudwatchAlarm.SweepAlarmsTestClusters | create-rds-cloudwatch-alarm/main.go:183 | the sweep, unlike the events, alarms test clusters |
| CreateRdsCloudwatchAlarm.Dispatch | create-rds-cloudwatch-alarm/main.go:57-102 | any other source sweeps; another RDS event, or an undecodable detail, does nothing |
| GrantPrivilegesToSchemas.ExcludedEntriesNotTrimmed | grant-privileges-to-schemas/main.go:57-64 | entries of the exclusion list are compared untrimmed, while the name is trimmed |
| GrantPrivilegesToSchemas.NoListExcludesBlankNames | grant-privileges-to-schemas/main.go:33-64 | with no exclusion list exactly the names that are blank after trimming are excluded |
| GrantPrivilegesToSchemas.IsExcludedCluster | grant-privileges-to-schemas/main.go:57-64 | a cluster is excluded exactly when its trimmed name equals an entry of the exclusion list |
| GrantPrivilegesToSchemas.FetchRDSClusters | grant-privileges-to-schemas/main.go:67-88 | a describe failure is wrapped; otherwise the present identifiers with the prefix that are not excluded are kept, in describe order |
| GrantPrivilegesToSchemas.MatchingExactly | grant-privileges-to-schemas/main.go:78-85 | exactly the present identifiers with the prefix that are not excluded are kept |
| GrantPrivilegesToSchemas.MatchingAppend | grant-privileges-to-schemas/main.go:78-85 | clusters are kept one by one, in describe order |
| GrantPrivilegesToSchemas.UnixMillisCountsDays | grant-privileges-to-schemas/main.go:151 | 1970-01-01 is at 0, and each calendar day is exactly 86400000 ms after the one before |
| GrantPrivilegesToSchemas.ParseLayout | grant-privileges-to-schemas/main.go:147 | whatever the layout 2006-01-02 accepts has its shape and is a real date |
| GrantPrivilegesToSchemas.ParseFormat | grant-privileges-to-schemas/main.go:142-147 | formatting a date in the layout and parsing it gives the date back |
| GrantPrivilegesToSchemas.FormatParse | grant-privileges-to-schemas/main.go:147 | whatever parses is the canonical text of the date it denotes |
| GrantPrivilegesToSchemas.GetActivityDate | grant-privileges-to-schemas/main.go:138-152 | "now" is midnight of today; other text succeeds exactly when it parses in the layout |
| GrantPrivilegesToSchemas.DefaultActivityDateMillis | grant-privileges-to-schemas/main.go:143-145 | an unset date is 2020-09-01, that is 1598918400000 ms |
| GrantPrivilegesToSchemas.Grants | grant-privileges-to-schemas/main.go:204-224 | the five grant statements, in order |
| GrantPrivilegesToSchemas.RunStatement | grant-privileges-to-schemas/main.go:205 | one statement is run on the cluster and fails exactly as the database says |
| GrantPrivilegesToSchemas.GrantSchemaPermissions | grant-privileges-to-schemas/main.go:204-224 | the five grants run in order, up to the first that fails, whose wrapped error is returned |
| GrantPrivilegesToSchemas.RunGrantsPrefix | grant-privileges-to-schemas/main.go:205-220 | grants run in order and stop at the first failure, whose wrapped error is returned; all run when none fails |
| GrantPrivilegesToSchemas.ApplyPermissions | grant-privileges-to-schemas/main.go:155-176 | only a failed connection or schema query is an error; every schema is tried |
| GrantPrivilegesToSchemas.GrantEverySchema | grant-privileges-to-schemas/main.go:168-172 | every eligible schema gets its grants, in order, a failing schema not stopping the next |
| GrantPrivilegesToSchemas.SchemaEffectsAppend | grant-privileges-to-schemas/main.go:168-172 | the schemas' statements are laid end to end in schema order |
| GrantPrivilegesToSchemas.EverySchemaProcessed | grant-privileges-to-schemas/main.go:168-172 | each schema's grants run whatever became of the other schemas |
| GrantPrivilegesToSchemas.GrantAcrossClusters | grant-privileges-to-schemas/main.go:115-134 | a failed listing is returned wrapped with nothing run; otherwise every selected cluster is processed in order and the result is success |
| GrantPrivilegesToSchemas.ProcessClusters | grant-privileges-to-schemas/main.go:121-131 | the selected clusters are processed in order, each as ProcessCluster says, whatever the earlier ones did |
| GrantPrivilegesToSchemas.ProcessCluster | grant-privileges-to-schemas/main.go:122-130 | a cluster whose secret is missing is skipped, others get their permissions |
| GrantPrivilegesToSchemas.Handler | grant-privileges-to-schemas/main.go:91-135 | the provisioner password, its connection and the activity date come first, each failure returned wrapped with nothing run; then the clusters are listed and granted |
| GrantPrivilegesToSchemas.HandlerSucceedsAfterListing | grant-privileges-to-schemas/main.go:121-134 | once the clusters are listed the handler succeeds, whatever happens to any cluster |
| GrantPrivilegesToSchemas.OnlySelectedClustersTouched | grant-privileges-to-schemas/main.go:121-131 | statements run only on clusters of the listing |
| GrantPrivilegesToSchemas.OnlyOwnClusterTouched | grant-privileges-to-schemas/main.go:155-176 | applying permissions to a cluster runs statements on that cluster only |
| CloudServerAuth.LoadConfig | cloud-server-auth/main.go:59-74 | succeeds exactly when both variables are set, CLOUD_SERVER being reported first |
| CloudServerAuth.PrefixIsNotSegmentAware | cloud-server-auth/main.go:142-146 | the prefix test is plain text: "/api/installationX" passes as if it were under /api/installation, while /api/other does not |
| CloudServerAuth.IsAuthorized | cloud-server-auth/main.go:134-160 | only escaped paths under "api/" or "/api/" are accepted |
| CloudServerAuth.Validate | cloud-server-auth/main.go:76-132 | the answer passes on the cloud server's reply exactly when the base URL, the path, the allow-list, the request, the call and the body read all succeed; any failure answers {"error": msg} with no headers |
| CloudServerAuth.PrefixAccepted | cloud-server-auth/main.go:135-146 | any path starting with a listed prefix is accepted |
| CloudServerAuth.IdPatternExactLength | cloud-server-auth/main.go:148-157 | a lock or unlock path passes a pattern exactly when its alphanumeric id has 26 characters |
| CloudServerAuth.IdPatternAnchored | cloud-server-auth/main.go:149-150 | the patterns are anchored: nothing appended to a matching path matches |
| CloudServerAuth.FailureTextContents | cloud-server-auth/main.go:178-186 | the notification names error, method, path and request id, and quotes the body exactly when there is one |
| CloudServerAuth.SendToWebhook | cloud-server-auth/main.go:177-215 | the notification is posted unless building the request fails |
| CloudServerAuth.ProcessFailedAuth | cloud-server-auth/main.go:162-175 | the answer is the status with {"error": msg}, the error being returned too, after the notification |
| CloudServerAuth.ValidateCloudRequest | cloud-server-auth/main.go:76-132 | the response, error and calls are those of the validation ladder |
| CloudServerAuth.FailureLadder | cloud-server-auth/main.go:77-106 | a bad base URL is 500, a bad path 400, an unlisted path 401; none of them calls the cloud server |
| CloudServerAuth.ForwardShape | cloud-server-auth/main.go:103-131 | once authorised, one call goes to the cloud server with method, URL, body, empty Accept-Encoding and a 10 s timeout; its answer is passed through as JSON |
| CloudServerAuth.WebhookOutcomeIrrelevant | cloud-server-auth/main.go:165-167 | whether the notification can be sent never changes the response or the error |
| LambdaPromtail.ExtraLabelName | lambda-promtail/main.go:111 | an extra label is the key behind the __extra_ prefix |
| LambdaPromtail.ParseExtraLabels | lambda-promtail/main.go:99-119 | empty text gives no labels, an odd number of entries or a failed validation is an error, and otherwise each pair becomes a prefixed label |
| LambdaPromtail.ExtraLabelNameInjective | lambda-promtail/main.go:111 | distinct keys give distinct label names |
| LambdaPromtail.PairLabelsKeys | lambda-promtail/main.go:110-112 | the labels are exactly the prefixed keys at even positions |
| LambdaPromtail.LastPairWins | lambda-promtail/main.go:110-112 | a key's value is the one paired with its last occurrence |
| LambdaPromtail.ExtraLabelsPrefixed | lambda-promtail/main.go:99-119 | every extra label carries the __extra_ prefix |
| LambdaPromtail.SettledExtraLabelsPrefixed | lambda-promtail/main.go:61-65 | the labels kept after a parse are prefixed, none being kept on an error |
| LambdaPromtail.ExtraLabelsEdgeCases | lambda-promtail/main.go:101-109 | empty text gives no labels; a single entry or an odd count is the invalid-labels error |
| LambdaPromtail.ApplyExtraLabels | lambda-promtail/main.go:121-123 | the extra labels are laid over the AWS ones: union of keys, extra values win |
| LambdaPromtail.BatchSizeReadsDecimal | lambda-promtail/main.go:90-94 | a decimal int64 in BATCH_SIZE is the batch size |
| LambdaPromtail.BatchSizeErrorDropped | lambda-promtail/main.go:93 | Atoi's error is dropped: text that is not a number gives 0 when Atoi reports a syntax error, and a run of digits too large for int64 before the bad character gives the int64 bound that was crossed |
| LambdaPromtail.Settings.constructor | lambda-promtail/main.go:46-47 | the globals start at their zero values |
| LambdaPromtail.Settings.SetupArguments | lambda-promtail/main.go:46-97 | a bad WRITE_ADDRESS panics at the print with nothing else set; otherwise every global is read from the environment, flags only switch on, and logs come in order |
| LambdaPromtail.Settings.ReadLabelsAndCredentials | lambda-promtail/main.go:58-70 | EXTRA_LABELS, USERNAME and PASSWORD are read, a bad label list leaves no labels, and the mismatch warning is logged exactly for a half-set pair |
| LambdaPromtail.Settings.ReadOptions | lambda-promtail/main.go:74-94 | the tenant, the two flags and the batch size are read, and nothing else changes |
| LambdaPromtail.FlagSpellings | lambda-promtail/main.go:76-87 | only "true" in any letter case switches a flag on |
| LambdaPromtail.CheckEventType | lambda-promtail/main.go:125-150 | S3 is tried before CloudWatch Logs; neither shape is "unknown event type" |
| LambdaPromtail.Batch.constructor | lambda-promtail/cw.go:51 | a new batch holds no entry |
| LambdaPromtail.Batch.Add | lambda-promtail/cw.go:38-41 | an entry is appended and the batch's error returned |
| LambdaPromtail.EventLabelsShape | lambda-promtail/cw.go:23-35 | group and owner always; the stream exactly when kept; the message exactly when included for a slow-query group; the extra labels on top; nothing else |
| LambdaPromtail.EventEntries | lambda-promtail/cw.go:22-45 | one entry per log event, in order |
| LambdaPromtail.ParseCWEvent | lambda-promtail/cw.go:15-48 | a parse error is returned with no entry added; otherwise every event's entry is appended, add errors being ignored |
| LambdaPromtail.ProcessCWEvent | lambda-promtail/cw.go:50-63 | a parse error sends nothing; otherwise the batch of all entries is sent and the send error returned |
| LambdaPromtail.Handler | lambda-promtail/main.go:152-167 | S3 goes to S3 processing, unknown shapes are refused, CloudWatch Logs is processed |
| Deckhand.UsedIdsExactly | deckhand/main.go:119-123 | an image is used exactly when some instance of some reservation runs it |
| Deckhand.GetUniqueUsedImages | deckhand/main.go:112-131 | the listing error, or a duplicate-free list of exactly the used images |
| Deckhand.ContainsInverted | deckhand/main.go:133-140 | "" when the image is in the list, the image id otherwise |
| Deckhand.EmptyIdLooksUsed | deckhand/main.go:75-76 | an image with an empty id reads as in use and is never cleaned |
| Deckhand.FilterImagesByDateRange | deckhand/main.go:142-161 | the images older than the threshold are kept in order, up to the first unparsable date, whose error is returned |
| Deckhand.FilterOlderExactly | deckhand/main.go:147-158 | with every date parsed, exactly the images strictly older than the threshold are kept |
| Deckhand.FilterStopsAtParseError | deckhand/main.go:148-151 | the first unparsable date ends the filter with its error and the images kept before it |
| Deckhand.CollectSnapshotIDs | deckhand/main.go:86-91 | the snapshots whose description contains the image id are collected in listing order |
| Deckhand.SnapshotIdsForExactly | deckhand/main.go:87-91 | exactly the snapshots whose description contains the image id are chosen |
| Deckhand.DeleteSnapshotsStopsAtFailure | deckhand/main.go:93-103 | deletes go in order up to and including the first failure, whose id and error are reported |
| Deckhand.DeleteSnapshots | deckhand/main.go:93-103 | at most one delete per listed snapshot; a reported failure names a listed snapshot whose delete failed, with that delete's own error |
| Deckhand.Wrapf | deckhand/main.go:101 | wrapping no error gives no error |
| Deckhand.DeleteSnapshotsOf | deckhand/main.go:93-103 | the snapshots are deleted in order up to the first failure, whose own error is returned wrapped |
| Deckhand.ProcessImage | deckhand/main.go:75-106 | one image's step, with the corrected snapshot error |
| Deckhand.CleanupImages | deckhand/main.go:74-108 | the loop over the old images takes each image's step in order and stops at the first that reports an error, with that error |
| Deckhand.DeleteAMIs | deckhand/main.go:49-110 | the corrected cleanup: listings first, then each old image in order, stopping with a wrapped error at the first failed listing, deregistration or snapshot delete |
| Deckhand.CorrectedStopsIffError | deckhand/main.go:74-109 | with the correction the run stops exactly when it reports an error |
| Deckhand.DeleteAMIsAsWritten | deckhand/main.go:49-110 | the cleanup as written makes the same calls and stops at the same point as the corrected one, and any error it does report is the corrected one's |
| Deckhand.AsWrittenSameCalls | deckhand/main.go:74-108 | over any list of old images, the loop as written and the corrected loop make the same calls and stop together, and an error the first reports is the second's |
| Deckhand.SnapshotFailureUnreported | deckhand/main.go:100-102 | as written, a failed snapshot delete stops the run and returns nil |
| Deckhand.SnapshotFailureExample | deckhand/main.go:100-102 | on one old unused image with an undeletable snapshot the code returns nil, the correction the wrapped error |
| Deckhand.DeregistersOnlyOldUnused | deckhand/main.go:74-85 | only filtered images no instance uses are deregistered |
| Deckhand.DeletesExactlyItsSnapshots | deckhand/main.go:82-103 | a deregistered image is followed by the deletes of exactly its snapshots, in order, until one fails |
| Deckhand.DeregisterFailureStops | deckhand/main.go:82-85 | a failed deregistration stops the run with its wrapped error |
| Deckhand.UsedList | deckhand/main.go:125-128 | some listing of the used images |
| Deckhand.CleanupDependsOnUsedSet | deckhand/main.go:75-128 | only membership in the used list matters, not its order |
| Deckhand.Handler | deckhand/main.go:26-47 | the session, the used images, then the corrected cleanup: the handler's calls and error are those of the corrected top level |
| Deckhand.HandlerSnapshotFailureExample | deckhand/main.go:26-47 | on the one-image run whose snapshot delete fails, the handler as written makes the deregistration and the delete and returns nil, while the corrected handler returns "Failed to delete Snapshot snap-1: denied" |
| Deckhand.DeleteAMIsDependsOnUsedSet | deckhand/main.go:126-128 | the cleanup is the same for every range order of the used images |
| BindServerNetworkAttachment.Retry | bind-server-network-attachment/main.go:76-87 | the call is made up to `attempts` times, stopping at the first success, with a doubled wait after each failure and the count and last error reported when all fail |
| BindServerNetworkAttachment.SkipFailures | bind-server-network-attachment/main.go:78-85 | failed calls are passed one by one, each followed by its wait |
| BindServerNetworkAttachment.RetryFirstSuccess | bind-server-network-attachment/main.go:79-81 | retry returns right after the first call that succeeds |
| BindServerNetworkAttachment.RetryAllFail | bind-server-network-attachment/main.go:78-86 | when every call fails there are exactly `attempts` calls, each followed by a wait, and the error names the count and the last error |
| BindServerNetworkAttachment.RetrySucceedsIff | bind-server-network-attachment/main.go:76-87 | retry succeeds exactly when one of the first `attempts` calls does |
| BindServerNetworkAttachment.TriesSucceedIff | bind-server-network-attachment/main.go:78-85 | from attempt i on, the loop ends in success exactly when some attempt from i on succeeds |
| BindServerNetworkAttachment.FailedWaits | bind-server-network-attachment/main.go:82-84 | the wait after the k-th failure is the base delay times 2^k, the last failure included |
| BindServerNetworkAttachment.FirstAvailable | bind-server-network-attachment/main.go:197-201 | the index of the first available interface, or none exactly when none is |
| BindServerNetworkAttachment.InterfaceFor | bind-server-network-attachment/main.go:192-202 | a describe error is returned; a returned interface id is that of a described interface whose status is available |
| BindServerNetworkAttachment.GetNetworkInterface | bind-server-network-attachment/main.go:192-202 | a describe error is returned; otherwise the first available interface, or the no-interface error |
| BindServerNetworkAttachment.InterfaceForChoice | bind-server-network-attachment/main.go:197-202 | the chosen interface is available with none before it; with none available the lookup fails with its message |
| BindServerNetworkAttachment.AttemptRun | bind-server-network-attachment/main.go:45-60 | an attempt succeeds only when an interface is found and attached |
| BindServerNetworkAttachment.Handler | bind-server-network-attachment/main.go:28-74 | the hook makes the calls its lifecycle specification gives, whose cases LifecycleResult states |
| BindServerNetworkAttachment.OnlyLaunchEvents | bind-server-network-attachment/main.go:29 | only launch lifecycle actions are acted on |
| BindServerNetworkAttachment.LifecycleResult | bind-server-network-attachment/main.go:34-72 | a launch ends by completing the instance's lifecycle action, with CONTINUE exactly when the subnet was found and one of the five attempts succeeded, and ABANDON otherwise |
| BindServerNetworkAttachment.SubnetFailureAbandons | bind-server-network-attachment/main.go:34-42 | a failed subnet lookup abandons the launch without attaching |
| BindServerNetworkAttachment.SuccessAttachesFirstAvailable | bind-server-network-attachment/main.go:46-59 | a successful attempt attached the first available interface to the instance |

## Left out

- JSON encoding and decoding of events, payloads and bodies: the decoded value, or its failure, is an input.
- url.Parse, ResolveReference and EscapedPath in cloud-server-auth: their results are inputs; the allow-list regular expressions are written out as predicates.
- cloud-server-auth copies none of the inbound headers onto the outbound request; the model follows the code, so only Accept-Encoding is set.
- Clocks: time.Now is an input (deckhand's `now`, the activity date's `today`); time.Unix(...).String() renderings are input text.
- Randomness and sleeping: the retry's jitter is not modelled; a Sleep effect records the base delay only.
- BindServerNetworkAttachment.Retry: the int64 overflow of the doubling delay is not modelled, because delays are unbounded naturals.
- The `.(string)` type assertions and the `Reservations[0].Instances[0]` indexing of bind-server, which panic on unexpected input, are not modelled; the detail entries and the VPC and subnet are inputs.
- Deckhand.FilterImagesByDateRange: RFC3339Nano parsing is an input (nanoseconds or a parse error), and the float comparison of hours is modelled as an exact integer comparison of nanoseconds.
- The DescribeImages owner and name filter and the snapshot owner filter of deckhand are applied by AWS, so the listings are given already filtered.
- AlertElbCloudwatchAlarm.ListAllIncidents: the PagerDuty server is assumed consistent: the total it reports on every page is the number of incidents it holds, and each page is the exact slice at its offset; the Go loop reads res.Total afresh from every page and never checks it against the incidents served.
- The ELB listing loops of listAllLBs request the same first page again while NextMarker is set; the model takes the account's listing as one answer.
- Every send helper in the response.go and notification.go files, including the ones that panic when sending fails: a post is an effect, and the model does not include its failure handling.
- The sendMattermostWebhook helpers of provisioner-notification (main.go:268-283) and elrond-notification (main.go:178-193) call `req.Header.Set` before checking the error of `http.NewRequest`, so a request that cannot be built panics on the nil request; the model does not include this panic, a post being an effect.
- The `session.Must` in fetchRDSClusters of grant-privileges-to-schemas (main.go:68) panics when the AWS session cannot be created; the model does not include this panic and takes the RDS describe answer as given.
- CreateElbCloudwatchAlarm.GetV2LB: an ARN absent from the model's account map describes to no load balancer by the model's own convention; real ELBv2 answers an unknown ARN with a LoadBalancerNotFound error, which the model expresses by mapping that ARN to an `Err` answer.
- Logging (logrus, log, fmt.Println) is not modelled, except for the messages setupArguments logs in order.
- The Mattermost attachment members that no relay sets (pretext, text and the like) are not modelled.
- The state names of the cloud and elrond model packages are not part of this model; their values are written as the packages are documented to spell them.
- fetchEligibleSchemas and sql.Open are given by their answers; the SQL query runs in the provisioner database and is not modelled.
- The S3 path of lambda-promtail (processS3Event), newBatch, sendToPromtail and the batch internals are inputs; LabelSet.Validate's verdict is an input.
- Non-ASCII letter case: ToUpper and EqualFold are modelled on ASCII letters only.
- main, init and lambda.Start wiring; log.Fatalf paths; ebs-janitor and elb-cleanup, which are not part of this model.
- GrantPrivilegesToSchemas.GetActivityDate: the error text of time.Parse is reduced to the "invalid date format" wrapper.
- Floating-point alarm thresholds are the integer 0.

## Findings

| source | as written | input that shows it | evidently intended | confidence | as-written member | corrected member |
|---|---|---|---|---|---|---|
| deckhand/main.go:100-102 | a failed snapshot delete returns `errors.Wrapf(err, …)`, but `err` is the deregistration's nil result, so the run stops and reports success | one image older than 730 hours that no instance uses, whose only snapshot fails to delete with "denied" | return the wrapped `deleteErr`: "Failed to delete Snapshot snap-1: denied" | not executed | Deckhand.DeleteAMIsAsWritten (shown by Deckhand.SnapshotFailureExample and Deckhand.HandlerSnapshotFailureExample) | Deckhand.DeleteAMIs |
