/** The log forwarder that turns CloudWatch Logs batches into Loki entries:
    its start-up configuration (globals filled from the environment), the
    EXTRA_LABELS parser, the detection of the event's shape, and the per-event
    label construction of the CloudWatch path. */
module LambdaPromtail {
  import opened Common
  import Strconv

  const InvalidExtraLabelsError: string :=
    "invalid value for environment variable EXTRA_LABELS. Expected a comma separated list with an even number of entries. "
  const ExtraPrefix: string := "__extra_"
  const DefaultBatchSize: int := 131072
  const MissingWriteAddress: string :=
    "required environmental variable WRITE_ADDRESS not present, format: https://<hostname>/loki/api/v1/push"
  const UnparsableWriteAddress: string := "unable to parse URL provided"
  const CredentialsMismatch: string := "both username and password must be set if either one is set"

  const LogGroupLabel: string := "__aws_cloudwatch_log_group"
  const OwnerLabel: string := "__aws_cloudwatch_owner"
  const LogStreamLabel: string := "__aws_cloudwatch_log_stream"
  const MessageLabel: string := "__aws_cloudwatch_message"

  // ---------------------------------------------------------------- labels

  function ExtraLabelName(key: string): (name: string)
    ensures HasPrefix(name, ExtraPrefix) && name[|ExtraPrefix|..] == key
  {
    ExtraPrefix + key
  }

  /** The label set of key/value pairs `parts[0], parts[1], parts[2], …`,
      written in order so that a later key overwrites an earlier one. */
  function PairLabels(parts: seq<string>): map<string, string>
    requires |parts| % 2 == 0
    decreases |parts|
  {
    if |parts| == 0 then map[]
    else PairLabels(parts[..|parts| - 2])[ExtraLabelName(parts[|parts| - 2]) := parts[|parts| - 1]]
  }

  /** parseExtraLabels; `validationError` is what LabelSet.Validate reports
      for the set built from the pairs. */
  function ExtraLabelsOf(raw: string, validationError: Option<string>): Result<map<string, string>>
  {
    if |raw| < 1 then Ok(map[])
    else
      var parts := Split(raw, ',');
      if |parts| % 2 != 0 then Err(InvalidExtraLabelsError)
      else if validationError.Some? then Err(validationError.value)
      else Ok(PairLabels(parts))
  }

  /** parseExtraLabels: the loop that steps over the split text two at a time. */
  method ParseExtraLabels(raw: string, validationError: Option<string>) returns (r: Result<map<string, string>>)
    ensures r == ExtraLabelsOf(raw, validationError)
  {
    var extracted: map<string, string> := map[];
    var parts := Split(raw, ',');
    if |raw| < 1 {
      return Ok(extracted);
    }
    if |parts| % 2 != 0 {
      return Err(InvalidExtraLabelsError);
    }
    var i := 0;
    while i < |parts|
      invariant 0 <= i <= |parts| && i % 2 == 0
      invariant extracted == PairLabels(parts[..i])
      decreases |parts| - i
    {
      assert parts[..i + 2][..i] == parts[..i];
      extracted := extracted[ExtraLabelName(parts[i]) := parts[i + 1]];
      i := i + 2;
    }
    assert parts[..i] == parts;
    if validationError.Some? {
      return Err(validationError.value);
    }
    r := Ok(extracted);
  }

  lemma ExtraLabelNameInjective(a: string, b: string)
    ensures ExtraLabelName(a) == ExtraLabelName(b) <==> a == b
  {
  }

  /** The labels are exactly the prefixed keys at the even positions. */
  lemma {:induction false} PairLabelsKeys(parts: seq<string>, k: string)
    requires |parts| % 2 == 0
    ensures k in PairLabels(parts) <==> exists i :: 0 <= i < |parts| && i % 2 == 0 && k == ExtraLabelName(parts[i])
    decreases |parts|
  {
    if |parts| > 0 {
      var front := parts[..|parts| - 2];
      PairLabelsKeys(front, k);
      if exists i :: 0 <= i < |front| && i % 2 == 0 && k == ExtraLabelName(front[i]) {
        var i :| 0 <= i < |front| && i % 2 == 0 && k == ExtraLabelName(front[i]);
        assert parts[i] == front[i];
      }
      if exists i :: 0 <= i < |parts| && i % 2 == 0 && k == ExtraLabelName(parts[i]) {
        var i :| 0 <= i < |parts| && i % 2 == 0 && k == ExtraLabelName(parts[i]);
        if i < |parts| - 2 {
          assert front[i] == parts[i];
        }
      }
    }
  }

  /** The value of a key is the one paired with its last occurrence. */
  lemma {:induction false} LastPairWins(parts: seq<string>, i: int)
    requires |parts| % 2 == 0 && 0 <= i < |parts| && i % 2 == 0
    requires forall j :: i < j < |parts| && j % 2 == 0 ==> parts[j] != parts[i]
    ensures ExtraLabelName(parts[i]) in PairLabels(parts)
    ensures PairLabels(parts)[ExtraLabelName(parts[i])] == parts[i + 1]
    decreases |parts|
  {
    var front := parts[..|parts| - 2];
    if i < |parts| - 2 {
      assert parts[|parts| - 2] != parts[i];
      ExtraLabelNameInjective(parts[|parts| - 2], parts[i]);
      forall j | i < j < |front| && j % 2 == 0
        ensures front[j] != front[i]
      {
        assert front[j] == parts[j];
      }
      LastPairWins(front, i);
      assert front[i] == parts[i] && front[i + 1] == parts[i + 1];
    }
  }

  /** Every extra label is named `__extra_<key>`, so none of them can be
      mistaken for one of the `__aws_` labels. */
  lemma ExtraLabelsPrefixed(raw: string, validationError: Option<string>, k: string)
    requires ExtraLabelsOf(raw, validationError).Ok? && k in ExtraLabelsOf(raw, validationError).value
    ensures HasPrefix(k, ExtraPrefix)
  {
    if |raw| >= 1 {
      var parts := Split(raw, ',');
      PairLabelsKeys(parts, k);
    }
  }

  /** What setupArguments keeps of a parse: the labels, or none on an error. */
  function SettledExtraLabels(raw: string, validationError: Option<string>): map<string, string>
  {
    var parsed := ExtraLabelsOf(raw, validationError);
    if parsed.Ok? then parsed.value else map[]
  }

  lemma SettledExtraLabelsPrefixed(raw: string, validationError: Option<string>)
    ensures forall k :: k in SettledExtraLabels(raw, validationError) ==> HasPrefix(k, ExtraPrefix)
  {
    forall k | k in SettledExtraLabels(raw, validationError)
      ensures HasPrefix(k, ExtraPrefix)
    {
      ExtraLabelsPrefixed(raw, validationError, k);
    }
  }

  /** Empty text gives no labels; an odd number of entries is an error, as is
      a single entry. */
  lemma ExtraLabelsEdgeCases(raw: string, validationError: Option<string>)
    ensures ExtraLabelsOf("", validationError) == Ok(map[])
    ensures raw != "" && ',' !in raw ==> ExtraLabelsOf(raw, validationError) == Err(InvalidExtraLabelsError)
    ensures raw != "" && |Split(raw, ',')| % 2 == 1 ==> ExtraLabelsOf(raw, validationError) == Err(InvalidExtraLabelsError)
  {
    if raw != "" && ',' !in raw {
      SplitNoSeparator(raw, ',');
    }
  }

  /** labels.Merge(extraLabels): the extra labels are laid over the AWS ones. */
  function ApplyExtraLabels(labels: map<string, string>, extra: map<string, string>): (r: map<string, string>)
    ensures r.Keys == labels.Keys + extra.Keys
    ensures forall k :: k in extra ==> r[k] == extra[k]
    ensures forall k :: k in labels && k !in extra ==> r[k] == labels[k]
  {
    labels + extra
  }

  // ---------------------------------------------------------------- set-up

  /** BATCH_SIZE: the default when unset, otherwise whatever Atoi returns
      with its error dropped (0 for text that is not a number, the int64
      bound for one that is too large). */
  function BatchSizeOf(batch: string): int
  {
    if batch != "" then Strconv.Atoi(batch).value else DefaultBatchSize
  }

  lemma BatchSizeReadsDecimal(n: int)
    requires Strconv.MinInt64 <= n <= Strconv.MaxInt64
    ensures BatchSizeOf(Strconv.Itoa(n)) == n
  {
    Strconv.AtoiItoa(n);
  }

  lemma BatchSizeErrorDropped(batch: string, i: int)
    requires 0 <= i < |batch| && !Strconv.IsDigit(batch[i]) && !(i == 0 && (batch[0] == '+' || batch[0] == '-'))
    ensures Strconv.Atoi(batch).err != Strconv.NoError
    ensures Strconv.Atoi(batch).err == Strconv.SyntaxError ==> BatchSizeOf(batch) == 0
    ensures Strconv.Atoi(batch).err == Strconv.RangeError ==>
      BatchSizeOf(batch) == Strconv.MaxInt64 || BatchSizeOf(batch) == Strconv.MinInt64
  {
    Strconv.AtoiRejectsNonNumeric(batch, i);
  }

  function AddressLogs(env: map<string, string>): seq<string>
  {
    if Lookup(env, "WRITE_ADDRESS") == "" then [MissingWriteAddress] else []
  }

  /** The warning for a username without a password or the reverse. */
  function CredentialLogs(env: map<string, string>): seq<string>
  {
    if (Lookup(env, "USERNAME") != "") != (Lookup(env, "PASSWORD") != "") then [CredentialsMismatch] else []
  }

  /** The package-level configuration that setupArguments assigns. */
  class Settings {
    var writeAddress: Option<string>
    var username: string
    var password: string
    var tenantID: string
    var extraLabelsRaw: string
    var extraLabels: map<string, string>
    var keepStream: bool
    var includeMessageAsLabel: bool
    var batchSize: int

    /** The zero values of the globals. */
    constructor ()
      ensures writeAddress == None && username == "" && password == "" && tenantID == ""
      ensures extraLabelsRaw == "" && extraLabels == map[]
      ensures !keepStream && !includeMessageAsLabel && batchSize == 0
    {
      writeAddress := None;
      username, password, tenantID := "", "", "";
      extraLabelsRaw := "";
      extraLabels := map[];
      keepStream, includeMessageAsLabel := false, false;
      batchSize := 0;
    }

    /** setupArguments. `addrParseError` is url.Parse's verdict on
        WRITE_ADDRESS: on an error the URL is nil and printing it panics, so
        nothing after it is assigned. A bad EXTRA_LABELS leaves no extra
        labels; the flags are only ever switched on; the messages logged
        through logrus are returned in order. */
    method SetupArguments(env: map<string, string>, addrParseError: Option<string>, validationError: Option<string>)
      returns (logs: seq<string>, panicked: bool)
      modifies this
      ensures panicked <==> addrParseError.Some?
      ensures panicked ==> logs == AddressLogs(env) + [UnparsableWriteAddress] && writeAddress == None
      ensures panicked ==> (username == old(username) && password == old(password) && tenantID == old(tenantID)
        && extraLabelsRaw == old(extraLabelsRaw) && extraLabels == old(extraLabels)
        && keepStream == old(keepStream) && includeMessageAsLabel == old(includeMessageAsLabel)
        && batchSize == old(batchSize))
      ensures !panicked ==> logs == AddressLogs(env) + CredentialLogs(env)
      ensures !panicked ==> (writeAddress == Some(Lookup(env, "WRITE_ADDRESS"))
        && username == Lookup(env, "USERNAME") && password == Lookup(env, "PASSWORD")
        && tenantID == Lookup(env, "TENANT_ID") && extraLabelsRaw == Lookup(env, "EXTRA_LABELS"))
      ensures !panicked ==> extraLabels == SettledExtraLabels(Lookup(env, "EXTRA_LABELS"), validationError)
      ensures !panicked ==> (keepStream == (old(keepStream) || IsTrueFold(Lookup(env, "KEEP_STREAM")))
        && includeMessageAsLabel == (old(includeMessageAsLabel) || IsTrueFold(Lookup(env, "INCLUDE_MESSAGE"))))
      ensures !panicked ==> batchSize == BatchSizeOf(Lookup(env, "BATCH_SIZE"))
      ensures !panicked ==> ExtraLabelsPrefixedInv()
    {
      logs := [];
      var addr := Lookup(env, "WRITE_ADDRESS");
      if addr == "" {
        logs := logs + [MissingWriteAddress];
      }
      if addrParseError.Some? {
        writeAddress := None;
        logs := logs + [UnparsableWriteAddress];
        panicked := true;
        return;
      }
      assert logs == AddressLogs(env);
      panicked := false;
      writeAddress := Some(addr);
      var credentialLogs := ReadLabelsAndCredentials(env, validationError);
      logs := logs + credentialLogs;
      ReadOptions(env);
    }

    /** The middle of setupArguments: the extra labels and the credentials,
        with the warning for a half-configured pair. */
    method ReadLabelsAndCredentials(env: map<string, string>, validationError: Option<string>)
      returns (logs: seq<string>)
      modifies this
      ensures logs == CredentialLogs(env)
      ensures username == Lookup(env, "USERNAME") && password == Lookup(env, "PASSWORD")
      ensures extraLabelsRaw == Lookup(env, "EXTRA_LABELS")
      ensures extraLabels == SettledExtraLabels(Lookup(env, "EXTRA_LABELS"), validationError)
      ensures ExtraLabelsPrefixedInv()
      ensures writeAddress == old(writeAddress) && tenantID == old(tenantID) && batchSize == old(batchSize)
      ensures keepStream == old(keepStream) && includeMessageAsLabel == old(includeMessageAsLabel)
    {
      extraLabelsRaw := Lookup(env, "EXTRA_LABELS");
      var parsed := ParseExtraLabels(extraLabelsRaw, validationError);
      extraLabels := if parsed.Ok? then parsed.value else map[];
      assert extraLabels == SettledExtraLabels(extraLabelsRaw, validationError);
      SettledExtraLabelsPrefixed(extraLabelsRaw, validationError);

      username := Lookup(env, "USERNAME");
      password := Lookup(env, "PASSWORD");
      logs := [];
      if (username != "" && password == "") || (username == "" && password != "") {
        logs := [CredentialsMismatch];
      }
    }

    /** The tail of setupArguments: the tenant, the two flags and the batch size. */
    method ReadOptions(env: map<string, string>)
      modifies this
      ensures tenantID == Lookup(env, "TENANT_ID")
      ensures keepStream == (old(keepStream) || IsTrueFold(Lookup(env, "KEEP_STREAM")))
      ensures includeMessageAsLabel == (old(includeMessageAsLabel) || IsTrueFold(Lookup(env, "INCLUDE_MESSAGE")))
      ensures batchSize == BatchSizeOf(Lookup(env, "BATCH_SIZE"))
      ensures writeAddress == old(writeAddress) && username == old(username) && password == old(password)
      ensures extraLabelsRaw == old(extraLabelsRaw) && extraLabels == old(extraLabels)
    {
      tenantID := Lookup(env, "TENANT_ID");

      if IsTrueFold(Lookup(env, "KEEP_STREAM")) {
        keepStream := true;
      }
      if IsTrueFold(Lookup(env, "INCLUDE_MESSAGE")) {
        includeMessageAsLabel := true;
      }

      var batch := Lookup(env, "BATCH_SIZE");
      batchSize := DefaultBatchSize;
      if batch != "" {
        batchSize := Strconv.Atoi(batch).value;
      }
    }

    /** Every extra label carries the `__extra_` prefix. */
    predicate ExtraLabelsPrefixedInv()
      reads this
    {
      forall k :: k in extraLabels ==> HasPrefix(k, ExtraPrefix)
    }
  }

  /** Only "true", in any letter case, switches a flag on. */
  lemma FlagSpellings()
    ensures IsTrueFold("true") && IsTrueFold("TRUE") && IsTrueFold("True") && IsTrueFold("tRuE")
    ensures !IsTrueFold("yes") && !IsTrueFold("1") && !IsTrueFold(" true") && !IsTrueFold("truee") && !IsTrueFold("")
  {
  }

  // ---------------------------------------------------------------- events

  datatype EventKind = S3 | CloudWatchLogs

  /** checkEventType: the S3 shape is tried before the CloudWatch Logs one,
      each with unknown fields refused; `decodes` holds the shapes the
      event's JSON decodes as. */
  method CheckEventType(decodes: set<EventKind>) returns (r: Result<EventKind>)
    ensures r == Ok(S3) <==> S3 in decodes
    ensures r == Ok(CloudWatchLogs) <==> S3 !in decodes && CloudWatchLogs in decodes
    ensures r.Err? <==> S3 !in decodes && CloudWatchLogs !in decodes
    ensures r.Err? ==> r.error == "unknown event type"
  {
    var types := [S3, CloudWatchLogs];
    assert types[0] == S3 && types[1] == CloudWatchLogs;
    for i := 0 to |types|
      invariant forall j :: 0 <= j < i ==> types[j] !in decodes
    {
      if types[i] in decodes {
        return Ok(types[i]);
      }
    }
    assert S3 !in decodes && CloudWatchLogs !in decodes;
    return Err("unknown event type");
  }

  datatype LogEvent = LogEvent(id: string, timestamp: int, message: string)

  /** The decoded payload of a CloudWatch Logs subscription. */
  datatype LogsData = LogsData(owner: string, logGroup: string, logStream: string, logEvents: seq<LogEvent>)

  /** An entry handed to the batch; the timestamp is the event's milliseconds. */
  datatype Entry = Entry(labels: map<string, string>, line: string, timestampMillis: int)

  /** The batch, as the sequence of entries handed to it. How it buffers and
      flushes them is not part of this model. */
  class Batch {
    var entries: seq<Entry>

    constructor ()
      ensures entries == []
    {
      entries := [];
    }

    /** b.add; the error is the batch's own and is chosen by `addError`. */
    method Add(e: Entry, addError: Option<string>) returns (err: Option<string>)
      modifies this
      ensures entries == old(entries) + [e]
      ensures err == addError
    {
      entries := entries + [e];
      err := addError;
    }
  }

  /** The labels of one log event of a batch. */
  function EventLabels(data: LogsData, ev: LogEvent, keepStream: bool, includeMessage: bool,
                       extra: map<string, string>): map<string, string>
  {
    var base := map[LogGroupLabel := data.logGroup, OwnerLabel := data.owner];
    var withStream := if keepStream then base[LogStreamLabel := data.logStream] else base;
    var withMessage := if includeMessage && Contains(data.logGroup, "slowquery")
      then withStream[MessageLabel := ev.message] else withStream;
    ApplyExtraLabels(withMessage, extra)
  }

  function EventEntry(data: LogsData, ev: LogEvent, keepStream: bool, includeMessage: bool,
                      extra: map<string, string>): Entry
  {
    Entry(EventLabels(data, ev, keepStream, includeMessage, extra), ev.message, ev.timestamp)
  }

  /** With prefixed extra labels, the group and owner are always present,
      the stream exactly when it is kept, and the message exactly when it is
      included and the group is a slow-query log; the extra labels come on
      top, and there is no other label. */
  lemma EventLabelsShape(data: LogsData, ev: LogEvent, keepStream: bool, includeMessage: bool,
                         extra: map<string, string>)
    requires forall k :: k in extra ==> HasPrefix(k, ExtraPrefix)
    ensures var l := EventLabels(data, ev, keepStream, includeMessage, extra);
      LogGroupLabel in l && l[LogGroupLabel] == data.logGroup
      && OwnerLabel in l && l[OwnerLabel] == data.owner
      && (LogStreamLabel in l <==> keepStream)
      && (keepStream ==> l[LogStreamLabel] == data.logStream)
      && (MessageLabel in l <==> includeMessage && Contains(data.logGroup, "slowquery"))
      && (MessageLabel in l ==> l[MessageLabel] == ev.message)
      && (forall k :: k in extra ==> k in l && l[k] == extra[k])
      && (forall k :: k in l ==> k in extra || k in {LogGroupLabel, OwnerLabel, LogStreamLabel, MessageLabel})
  {
    AwsLabelNotExtra(LogGroupLabel);
    AwsLabelNotExtra(OwnerLabel);
    AwsLabelNotExtra(LogStreamLabel);
    AwsLabelNotExtra(MessageLabel);
  }

  lemma AwsLabelNotExtra(s: string)
    requires |s| >= |ExtraPrefix| && s[2] == 'a'
    ensures !HasPrefix(s, ExtraPrefix)
  {
    assert s[..|ExtraPrefix|][2] != ExtraPrefix[2];
  }

  function EventEntries(data: LogsData, keepStream: bool, includeMessage: bool, extra: map<string, string>): (r: seq<Entry>)
    ensures |r| == |data.logEvents|
    ensures forall i :: 0 <= i < |r| ==> r[i] == EventEntry(data, data.logEvents[i], keepStream, includeMessage, extra)
  {
    seq(|data.logEvents|, i requires 0 <= i < |data.logEvents| =>
      EventEntry(data, data.logEvents[i], keepStream, includeMessage, extra))
  }

  /** parseCWEvent. `parsed` is what AWSLogs.Parse gives; `addErrors`
      holds the positions at which b.add reports an error, which is ignored. */
  method ParseCWEvent(settings: Settings, b: Batch, parsed: Result<LogsData>, addErrors: map<int, string>)
    returns (err: Option<string>)
    modifies b
    ensures parsed.Err? ==> err == Some(parsed.error) && b.entries == old(b.entries)
    ensures parsed.Ok? ==> (err == None && b.entries == old(b.entries)
      + EventEntries(parsed.value, settings.keepStream, settings.includeMessageAsLabel, settings.extraLabels))
  {
    if parsed.Err? {
      return Some(parsed.error);
    }
    var data := parsed.value;
    ghost var before := b.entries;
    for i := 0 to |data.logEvents|
      invariant |b.entries| == |before| + i && b.entries[..|before|] == before
      invariant forall j :: 0 <= j < i ==>
        b.entries[|before| + j] == EventEntry(data, data.logEvents[j], settings.keepStream,
                                              settings.includeMessageAsLabel, settings.extraLabels)
    {
      var event := data.logEvents[i];
      var labels := map[LogGroupLabel := data.logGroup, OwnerLabel := data.owner];
      if settings.keepStream {
        labels := labels[LogStreamLabel := data.logStream];
      }
      var res := Contains(data.logGroup, "slowquery");
      if settings.includeMessageAsLabel && res {
        labels := labels[MessageLabel := event.message];
      }
      labels := ApplyExtraLabels(labels, settings.extraLabels);
      var addError := if i in addErrors then Some(addErrors[i]) else None;
      var ignored := b.Add(Entry(labels, event.message, event.timestamp), addError);
    }
    err := None;
  }

  /** processCWEvent: parse into a new batch, then send it unless parsing
      failed. `sent` is the batch handed to sendToPromtail, if any. */
  method ProcessCWEvent(settings: Settings, parsed: Result<LogsData>, addErrors: map<int, string>,
                        sendError: Option<string>)
    returns (err: Option<string>, sent: Option<seq<Entry>>)
    ensures parsed.Err? ==> err == Some(parsed.error) && sent == None
    ensures parsed.Ok? ==> (err == sendError
      && sent == Some(EventEntries(parsed.value, settings.keepStream, settings.includeMessageAsLabel, settings.extraLabels)))
  {
    var batch := new Batch();
    ghost var entries := if parsed.Ok? then EventEntries(parsed.value, settings.keepStream,
                                                         settings.includeMessageAsLabel, settings.extraLabels) else [];
    err := ParseCWEvent(settings, batch, parsed, addErrors);
    if err.Some? {
      sent := None;
      return;
    }
    assert [] + entries == entries;
    sent := Some(batch.entries);
    err := sendError;
  }

  /** handler: detect the shape, then process it; the S3 path is not part of
      this model and stands for its error, `s3Error`. */
  method Handler(settings: Settings, decodes: set<EventKind>, parsed: Result<LogsData>,
                 addErrors: map<int, string>, sendError: Option<string>, s3Error: Option<string>)
    returns (err: Option<string>, sent: Option<seq<Entry>>)
    ensures S3 in decodes ==> err == s3Error && sent == None
    ensures S3 !in decodes && CloudWatchLogs !in decodes ==> err == Some("unknown event type") && sent == None
    ensures S3 !in decodes && CloudWatchLogs in decodes && parsed.Err? ==> err == Some(parsed.error) && sent == None
    ensures S3 !in decodes && CloudWatchLogs in decodes && parsed.Ok? ==> (err == sendError
      && sent == Some(EventEntries(parsed.value, settings.keepStream, settings.includeMessageAsLabel, settings.extraLabels)))
  {
    var kind := CheckEventType(decodes);
    if kind.Err? {
      return Some(kind.error), None;
    }
    if kind.value == S3 {
      return s3Error, None;
    }
    err, sent := ProcessCWEvent(settings, parsed, addErrors, sendError);
  }
}
