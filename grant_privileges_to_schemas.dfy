/** The schema permission granter: for every multitenant RDS cluster not on
    the exclusion list, it fetches the cluster's password, asks the
    provisioner database for the schemas created since the activity date,
    and grants the reader and writer roles their privileges on each schema
    with five statements. */
module GrantPrivilegesToSchemas {
  import opened Common
  import opened Strconv

  const ReaderUser: string := "teleport_db_reader"
  const WriterUser: string := "teleport_db_writer"
  const ClusterPrefix: string := "rds-cluster-multitenant"
  const DefaultActivityDate: string := "2020-09-01"
  const MillisPerDay: int := 86400000

  // ---------------------------------------------------------------------
  // Cluster selection

  /** The exclusion list, split on commas and never trimmed. */
  function ExcludedClusters(env: map<string, string>): seq<string>
  {
    Split(Lookup(env, "EXCLUDED_CLUSTERS"), ',')
  }

  /** isExcludedCluster: the trimmed name equals an entry exactly. */
  predicate IsExcludedCluster(excluded: seq<string>, clusterName: string): (b: bool)
    ensures b <==> exists i :: 0 <= i < |excluded| && excluded[i] == TrimSpace(clusterName)
  {
    TrimSpace(clusterName) in excluded
  }

  /** The entries are compared as written: an entry with a leading space
      never matches, while a name is trimmed before the comparison. */
  lemma ExcludedEntriesNotTrimmed()
    ensures !IsExcludedCluster(["a", " b"], "b")
    ensures IsExcludedCluster(["a", "b"], " b ")
  {
    TrimPaddedName();
    assert "b" != " b" by { assert |"b"| != |" b"|; }
  }

  lemma TrimPaddedName()
    ensures TrimSpace("b") == "b" && TrimSpace(" b ") == "b"
  {
    assert TrimLeft("b") == "b";
    assert TrimLeft("b ") == "b ";
    assert TrimRight("b") == "b";
  }

  /** With no exclusion list the list holds the empty entry alone, so exactly
      the names that are blank after trimming are excluded. */
  lemma NoListExcludesBlankNames(env: map<string, string>, clusterName: string)
    requires Lookup(env, "EXCLUDED_CLUSTERS") == ""
    ensures IsExcludedCluster(ExcludedClusters(env), clusterName) <==> TrimSpace(clusterName) == ""
  {
    assert ExcludedClusters(env) == [""];
  }

  /** The identifiers fetchRDSClusters keeps, by reference: those present,
      with the prefix and not excluded. */
  function Matching(excluded: seq<string>, prefix: string, ids: seq<Option<string>>): seq<string>
  {
    if |ids| == 0 then []
    else
      var last := ids[|ids| - 1];
      Matching(excluded, prefix, ids[..|ids| - 1])
      + (if last.Some? && HasPrefix(last.value, prefix) && !IsExcludedCluster(excluded, last.value) then [last.value]
         else [])
  }

  /** fetchRDSClusters, given the described cluster identifiers (None for a
      cluster without one) or the describe error. */
  method FetchRDSClusters(excluded: seq<string>, prefix: string, described: Result<seq<Option<string>>>)
    returns (r: Result<seq<string>>)
    ensures described.Err? ==> r == Err("failed to describe RDS clusters: " + described.error)
    ensures described.Ok? ==> r == Ok(Matching(excluded, prefix, described.value))
  {
    if described.Err? {
      return Err("failed to describe RDS clusters: " + described.error);
    }
    var clusters := described.value;
    var matchingClusters := [];
    for i := 0 to |clusters|
      invariant matchingClusters == Matching(excluded, prefix, clusters[..i])
    {
      assert clusters[..i + 1][..i] == clusters[..i];
      var cluster := clusters[i];
      if cluster.Some? && HasPrefix(cluster.value, prefix) {
        if IsExcludedCluster(excluded, cluster.value) {
          continue;
        }
        matchingClusters := matchingClusters + [cluster.value];
      }
    }
    assert clusters[..|clusters|] == clusters;
    r := Ok(matchingClusters);
  }

  /** Exactly the present identifiers with the prefix that are not excluded
      are kept. */
  lemma {:induction false} MatchingExactly(excluded: seq<string>, prefix: string, ids: seq<Option<string>>, x: string)
    ensures x in Matching(excluded, prefix, ids) <==>
      (exists i :: 0 <= i < |ids| && ids[i] == Some(x)) && HasPrefix(x, prefix) && !IsExcludedCluster(excluded, x)
    decreases |ids|
  {
    if |ids| > 0 {
      var init := ids[..|ids| - 1];
      MatchingExactly(excluded, prefix, init, x);
      if exists i :: 0 <= i < |ids| && ids[i] == Some(x) {
        var i :| 0 <= i < |ids| && ids[i] == Some(x);
        if i < |ids| - 1 {
          assert init[i] == ids[i];
        }
      }
      if exists i :: 0 <= i < |init| && init[i] == Some(x) {
        var i :| 0 <= i < |init| && init[i] == Some(x);
        assert ids[i] == init[i];
      }
    }
  }

  /** Keeping is done element by element, so the input order is kept. */
  lemma {:induction false} MatchingAppend(excluded: seq<string>, prefix: string, a: seq<Option<string>>, b: seq<Option<string>>)
    ensures Matching(excluded, prefix, a + b) == Matching(excluded, prefix, a) + Matching(excluded, prefix, b)
    decreases |b|
  {
    if |b| == 0 {
      assert a + b == a;
    } else {
      assert (a + b)[..|a + b| - 1] == a + b[..|b| - 1];
      MatchingAppend(excluded, prefix, a, b[..|b| - 1]);
    }
  }

  // ---------------------------------------------------------------------
  // The activity date: time.Parse with the layout "2006-01-02", in UTC

  datatype Date = Date(year: int, month: int, day: int)

  predicate IsLeap(year: int)
  {
    year % 4 == 0 && (year % 100 != 0 || year % 400 == 0)
  }

  function DaysIn(month: int, year: int): int
  {
    if month == 2 then (if IsLeap(year) then 29 else 28)
    else if month == 4 || month == 6 || month == 9 || month == 11 then 30
    else 31
  }

  /** A date the layout can denote: a four-digit year, a month, and a day
      of that month. */
  predicate ValidDate(d: Date)
  {
    0 <= d.year <= 9999 && 1 <= d.month <= 12 && 1 <= d.day <= DaysIn(d.month, d.year)
  }

  /** Days from 0000-01-01 to the first of January of `year`. */
  function DaysBeforeYear(year: nat): int
  {
    365 * year + (year + 3) / 4 - (year + 99) / 100 + (year + 399) / 400
  }

  function DaysBeforeMonth(month: int, year: int): int
    requires 1 <= month <= 12
  {
    [0, 31, 59, 90, 120, 151, 181, 212, 243, 273, 304, 334][month - 1] + (if month > 2 && IsLeap(year) then 1 else 0)
  }

  /** parsedDate.UTC().UnixMilli() */
  function UnixMillis(d: Date): int
    requires ValidDate(d)
  {
    (DaysBeforeYear(d.year) + DaysBeforeMonth(d.month, d.year) + d.day - 1 - DaysBeforeYear(1970)) * MillisPerDay
  }

  /** The calendar day after `d`. */
  function NextDay(d: Date): (r: Date)
    requires ValidDate(d)
  {
    if d.day < DaysIn(d.month, d.year) then Date(d.year, d.month, d.day + 1)
    else if d.month < 12 then Date(d.year, d.month + 1, 1)
    else Date(d.year + 1, 1, 1)
  }

  lemma QuotientStep4(y: nat)
    ensures (y + 4) / 4 - (y + 3) / 4 == if y % 4 == 0 then 1 else 0
  {
  }

  lemma QuotientStep100(y: nat)
    ensures (y + 100) / 100 - (y + 99) / 100 == if y % 100 == 0 then 1 else 0
  {
  }

  lemma QuotientStep400(y: nat)
    ensures (y + 400) / 400 - (y + 399) / 400 == if y % 400 == 0 then 1 else 0
  {
  }

  /** A multiple of 400 is one of 100, and a multiple of 100 one of 4. */
  lemma DivisibilityChain(y: nat)
    ensures y % 400 == 0 ==> y % 100 == 0
    ensures y % 100 == 0 ==> y % 4 == 0
  {
    if y % 400 == 0 {
      assert y == 100 * (4 * (y / 400));
    }
    if y % 100 == 0 {
      assert y == 4 * (25 * (y / 100));
    }
  }

  lemma DaysInYear(year: nat)
    ensures DaysBeforeYear(year + 1) - DaysBeforeYear(year) == if IsLeap(year) then 366 else 365
  {
    QuotientStep4(year);
    QuotientStep100(year);
    QuotientStep400(year);
    DivisibilityChain(year);
    var a4, a100, a400 := (year + 4) / 4 - (year + 3) / 4, (year + 100) / 100 - (year + 99) / 100,
                          (year + 400) / 400 - (year + 399) / 400;
    assert DaysBeforeYear(year + 1) - DaysBeforeYear(year) == 365 + a4 - a100 + a400;
    assert IsLeap(year) <==> a4 - a100 + a400 == 1;
  }

  /** The epoch is at zero and every calendar day is exactly one day of
      milliseconds after the one before, which pins the conversion down. */
  lemma UnixMillisCountsDays(d: Date)
    requires ValidDate(d) && d.year < 9999
    ensures UnixMillis(Date(1970, 1, 1)) == 0
    ensures ValidDate(NextDay(d)) && UnixMillis(NextDay(d)) == UnixMillis(d) + MillisPerDay
  {
    if d.day == DaysIn(d.month, d.year) && d.month == 12 {
      DaysInYear(d.year);
    }
  }

  /** The value of a run of decimal digits. */
  function Num(s: string): (n: nat)
    requires AllDigits(s)
  {
    if |s| == 0 then 0 else Num(s[..|s| - 1]) * 10 + DigitValue(s[|s| - 1])
  }

  function Pow10(w: nat): (p: nat)
    ensures p >= 1
  {
    if w == 0 then 1 else 10 * Pow10(w - 1)
  }

  /** `n` in `w` digits with leading zeros, as the layout's 2006, 01 and 02
      print. */
  function Pad(n: nat, w: nat): (s: string)
    ensures |s| == w && AllDigits(s)
  {
    if w == 0 then [] else Pad(n / 10, w - 1) + [DigitChar(n % 10)]
  }

  /** The text "YYYY-MM-DD" insists on: ten characters, dashes at five and
      eight, digits elsewhere. */
  predicate DateShape(s: string)
  {
    |s| == 10 && s[4] == '-' && s[7] == '-' && AllDigits(s[..4]) && AllDigits(s[5..7]) && AllDigits(s[8..])
  }

  function FormatDate(d: Date): string
    requires ValidDate(d)
  {
    Pad(d.year, 4) + "-" + Pad(d.month, 2) + "-" + Pad(d.day, 2)
  }

  /** time.Parse("2006-01-02", s): the shape, then the ranges of month and day. */
  function ParseLayout(s: string): (r: Option<Date>)
    ensures r.Some? ==> DateShape(s) && ValidDate(r.value)
  {
    if DateShape(s) then
      var d := Date(Num(s[..4]), Num(s[5..7]), Num(s[8..]));
      if ValidDate(d) then Some(d) else None
    else None
  }

  lemma {:induction false} NumPad(n: nat, w: nat)
    requires n < Pow10(w)
    ensures Num(Pad(n, w)) == n
    decreases w
  {
    if w > 0 {
      var s := Pad(n, w);
      assert s[..|s| - 1] == Pad(n / 10, w - 1);
      NumPad(n / 10, w - 1);
    }
  }

  lemma {:induction false} PadNum(s: string)
    requires AllDigits(s)
    ensures Num(s) < Pow10(|s|) && Pad(Num(s), |s|) == s
    decreases |s|
  {
    if |s| > 0 {
      var init := s[..|s| - 1];
      PadNum(init);
      var c := s[|s| - 1];
      assert (Num(init) * 10 + DigitValue(c)) / 10 == Num(init);
      assert (Num(init) * 10 + DigitValue(c)) % 10 == DigitValue(c);
      assert DigitChar(DigitValue(c)) == c;
      assert s == init + [c];
    }
  }

  lemma DateSplit(s: string)
    requires |s| == 10
    ensures s == s[..4] + "-" + s[5..7] + "-" + s[8..] <== s[4] == '-' && s[7] == '-'
  {
  }

  /** Formatting a date and parsing it back gives the date. */
  lemma ParseFormat(d: Date)
    requires ValidDate(d)
    ensures ParseLayout(FormatDate(d)) == Some(d)
  {
    var s := FormatDate(d);
    assert s[..4] == Pad(d.year, 4) && s[5..7] == Pad(d.month, 2) && s[8..] == Pad(d.day, 2);
    assert Pow10(4) == 10000 && Pow10(2) == 100;
    NumPad(d.year, 4);
    NumPad(d.month, 2);
    NumPad(d.day, 2);
  }

  /** Only the canonical text of a date parses: whatever is accepted is the
      formatting of the date it denotes. */
  lemma FormatParse(s: string)
    requires ParseLayout(s).Some?
    ensures FormatDate(ParseLayout(s).value) == s
  {
    PadNum(s[..4]);
    PadNum(s[5..7]);
    PadNum(s[8..]);
    DateSplit(s);
  }

  /** getActivityDate, `today` being the clock's date in the process's local
      time zone. */
  function GetActivityDate(env: map<string, string>, today: Date): (r: Result<int>)
    requires ValidDate(today)
    ensures Lookup(env, "ACTIVITY_DATE") == "now" ==> r == Ok(UnixMillis(today))
    ensures Lookup(env, "ACTIVITY_DATE") != "now" && Lookup(env, "ACTIVITY_DATE") != "" ==>
      (r.Ok? <==> ParseLayout(Lookup(env, "ACTIVITY_DATE")).Some?)
      && (r.Ok? ==> DateShape(Lookup(env, "ACTIVITY_DATE")))
    ensures var raw := Lookup(env, "ACTIVITY_DATE");
      raw != "now" && raw != "" && ParseLayout(raw).Some? ==> r == Ok(UnixMillis(ParseLayout(raw).value))
  {
    var raw := Lookup(env, "ACTIVITY_DATE");
    var dateStr := if raw == "now" then FormatDate(today) else if raw == "" then DefaultActivityDate else raw;
    ParseFormat(today);
    match ParseLayout(dateStr)
    case None => Err("invalid date format")
    case Some(d) => Ok(UnixMillis(d))
  }

  /** An unset activity date means the first of September 2020, midnight UTC. */
  lemma DefaultActivityDateMillis(env: map<string, string>, today: Date)
    requires ValidDate(today) && Lookup(env, "ACTIVITY_DATE") == ""
    ensures GetActivityDate(env, today) == Ok(1598918400000)
  {
    var d := Date(2020, 9, 1);
    ParseFormat(d);
    DefaultDateText();
    DefaultDateMillis();
  }

  lemma DefaultDateText()
    ensures FormatDate(Date(2020, 9, 1)) == DefaultActivityDate
  {
    assert DigitChar(0) == '0' && DigitChar(1) == '1' && DigitChar(2) == '2' && DigitChar(9) == '9';
    var zero := Pad(0, 1);
    assert zero == ['0'];
    var two := Pad(2, 1);
    assert two == ['2'];
    assert Pad(20, 2) == two + ['0'];
    assert Pad(202, 3) == Pad(20, 2) + ['2'];
    assert Pad(2020, 4) == Pad(202, 3) + ['0'];
    assert Pad(9, 2) == zero + ['9'];
    assert Pad(1, 2) == zero + ['1'];
  }

  lemma DefaultDateMillis()
    ensures UnixMillis(Date(2020, 9, 1)) == 1598918400000
  {
    assert DaysBeforeYear(2020) == 737790 && DaysBeforeYear(1970) == 719528;
    assert DaysBeforeMonth(9, 2020) == 244;
  }

  // ---------------------------------------------------------------------
  // Grants

  /** A grant statement and the wording of its failure. */
  datatype Grant = Grant(statement: string, failure: string)

  /** grantSchemaPermissions' five statements, in the order they are run. */
  function Grants(schema: string, readerUser: string, writerUser: string): (g: seq<Grant>)
    ensures |g| == 5
  {
    [Grant("GRANT USAGE ON SCHEMA " + schema + " TO " + readerUser + ";",
           "failed to grant USAGE on schema " + schema + " to " + readerUser),
     Grant("GRANT SELECT ON ALL TABLES IN SCHEMA " + schema + " TO " + readerUser + ";",
           "failed to grant SELECT on schema " + schema + " tables to " + readerUser),
     Grant("GRANT USAGE, CREATE ON SCHEMA " + schema + " TO " + writerUser + ";",
           "failed to grant USAGE, CREATE on schema " + schema + " to " + writerUser),
     Grant("GRANT ALL PRIVILEGES ON ALL TABLES IN SCHEMA " + schema + " TO " + writerUser + ";",
           "failed to grant ALL PRIVILEGES on schema " + schema + " tables to " + writerUser),
     Grant("GRANT EXECUTE ON ALL FUNCTIONS IN SCHEMA " + schema + " TO " + writerUser + ";",
           "failed to grant EXECUTE on schema " + schema + " functions to " + writerUser)]
  }

  /** The databases and Secrets Manager as the granter sees them: the
      secrets by name (a missing one fails with an empty message), the
      describe result, the connection errors (the provisioner's and each
      cluster's), the eligible-schema answer for each cluster (missing means
      none), and the statements that fail on a cluster, with their errors. */
  datatype World = World(
    secrets: map<string, Result<string>>,
    described: Result<seq<Option<string>>>,
    provisionerOpenError: Option<string>,
    openErrors: map<string, string>,
    eligible: map<string, Result<seq<string>>>,
    execErrors: map<(string, string), string>)

  /** What the granter does to the databases: the schema query it sends
      with the activity date, and each statement run on a cluster. */
  datatype Effect = QuerySchemas(activityDate: int) | Exec(cluster: string, statement: string)

  datatype Outcome = Outcome(effects: seq<Effect>, err: Option<string>)

  function GetSecret(w: World, name: string): Result<string>
  {
    if name !in w.secrets then Err("failed to retrieve secret " + name + ": ")
    else if w.secrets[name].Err? then Err("failed to retrieve secret " + name + ": " + w.secrets[name].error)
    else w.secrets[name]
  }

  /** The statements run, up to and including the first that fails. */
  function RunGrants(w: World, cluster: string, grants: seq<Grant>): Outcome
  {
    if |grants| == 0 then Outcome([], None)
    else
      var e := Exec(cluster, grants[0].statement);
      if (cluster, grants[0].statement) in w.execErrors then
        Outcome([e], Some(grants[0].failure + ": " + w.execErrors[(cluster, grants[0].statement)]))
      else
        var rest := RunGrants(w, cluster, grants[1..]);
        Outcome([e] + rest.effects, rest.err)
  }

  /** db.Exec of one statement. */
  method RunStatement(w: World, cluster: string, statement: string) returns (err: Option<string>, effect: Effect)
    ensures effect == Exec(cluster, statement)
    ensures err.Some? <==> (cluster, statement) in w.execErrors
    ensures err.Some? ==> err.value == w.execErrors[(cluster, statement)]
  {
    effect := Exec(cluster, statement);
    err := if (cluster, statement) in w.execErrors then Some(w.execErrors[(cluster, statement)]) else None;
  }

  /** grantSchemaPermissions */
  method GrantSchemaPermissions(w: World, cluster: string, schema: string, readerUser: string, writerUser: string)
    returns (err: Option<string>, effects: seq<Effect>)
    ensures Outcome(effects, err) == RunGrants(w, cluster, Grants(schema, readerUser, writerUser))
  {
    ghost var g0 := Grants(schema, readerUser, writerUser);
    ghost var g1, g2, g3, g4 := g0[1..], g0[2..], g0[3..], g0[4..];
    assert g0[1..] == g1 && g1[1..] == g2 && g2[1..] == g3 && g3[1..] == g4 && g4[1..] == [];
    var e, effect;
    e, effect := RunStatement(w, cluster, "GRANT USAGE ON SCHEMA " + schema + " TO " + readerUser + ";");
    effects := [effect];
    if e.Some? {
      return Some("failed to grant USAGE on schema " + schema + " to " + readerUser + ": " + e.value), effects;
    }
    assert RunGrants(w, cluster, g0) == Outcome(effects + RunGrants(w, cluster, g1).effects, RunGrants(w, cluster, g1).err);
    e, effect := RunStatement(w, cluster, "GRANT SELECT ON ALL TABLES IN SCHEMA " + schema + " TO " + readerUser + ";");
    effects := effects + [effect];
    if e.Some? {
      return Some("failed to grant SELECT on schema " + schema + " tables to " + readerUser + ": " + e.value), effects;
    }
    assert RunGrants(w, cluster, g0) == Outcome(effects + RunGrants(w, cluster, g2).effects, RunGrants(w, cluster, g2).err);
    e, effect := RunStatement(w, cluster, "GRANT USAGE, CREATE ON SCHEMA " + schema + " TO " + writerUser + ";");
    effects := effects + [effect];
    if e.Some? {
      return Some("failed to grant USAGE, CREATE on schema " + schema + " to " + writerUser + ": " + e.value), effects;
    }
    assert RunGrants(w, cluster, g0) == Outcome(effects + RunGrants(w, cluster, g3).effects, RunGrants(w, cluster, g3).err);
    e, effect := RunStatement(w, cluster, "GRANT ALL PRIVILEGES ON ALL TABLES IN SCHEMA " + schema + " TO " + writerUser + ";");
    effects := effects + [effect];
    if e.Some? {
      return Some("failed to grant ALL PRIVILEGES on schema " + schema + " tables to " + writerUser + ": " + e.value), effects;
    }
    assert RunGrants(w, cluster, g0) == Outcome(effects + RunGrants(w, cluster, g4).effects, RunGrants(w, cluster, g4).err);
    e, effect := RunStatement(w, cluster, "GRANT EXECUTE ON ALL FUNCTIONS IN SCHEMA " + schema + " TO " + writerUser + ";");
    effects := effects + [effect];
    if e.Some? {
      return Some("failed to grant EXECUTE on schema " + schema + " functions to " + writerUser + ": " + e.value), effects;
    }
    assert RunGrants(w, cluster, g0) == Outcome(effects + RunGrants(w, cluster, []).effects, RunGrants(w, cluster, []).err);
    assert effects + [] == effects;
    err := None;
  }

  /** The grants run in order and stop at the first failure: the statements
      run are a prefix of the list, every one but the last succeeded, the
      error is that of the last exactly when it failed, and all of them run
      when none fails. */
  lemma {:induction false} RunGrantsPrefix(w: World, cluster: string, grants: seq<Grant>)
    ensures var o := RunGrants(w, cluster, grants);
      |o.effects| <= |grants|
      && (forall i :: 0 <= i < |o.effects| ==> o.effects[i] == Exec(cluster, grants[i].statement))
      && (forall i :: 0 <= i < |o.effects| - 1 ==> (cluster, grants[i].statement) !in w.execErrors)
      && (o.err.None? <==> |o.effects| == |grants| && forall i :: 0 <= i < |grants| ==> (cluster, grants[i].statement) !in w.execErrors)
      && (o.err.Some? ==>
            (|o.effects| > 0
             && (cluster, grants[|o.effects| - 1].statement) in w.execErrors
             && o.err.value == grants[|o.effects| - 1].failure + ": " + w.execErrors[(cluster, grants[|o.effects| - 1].statement)]))
    decreases |grants|
  {
    if |grants| > 0 {
      var rest := grants[1..];
      RunGrantsPrefix(w, cluster, rest);
      var o := RunGrants(w, cluster, grants);
      var r := RunGrants(w, cluster, rest);
      if (cluster, grants[0].statement) !in w.execErrors {
        assert o.effects == [Exec(cluster, grants[0].statement)] + r.effects;
        forall i | 1 <= i < |o.effects|
          ensures o.effects[i] == Exec(cluster, grants[i].statement)
        {
          assert o.effects[i] == r.effects[i - 1] && rest[i - 1] == grants[i];
        }
        forall i | 1 <= i < |o.effects| - 1
          ensures (cluster, grants[i].statement) !in w.execErrors
        {
          assert rest[i - 1] == grants[i];
        }
        if o.err.Some? {
          assert rest[|r.effects| - 1] == grants[|o.effects| - 1];
        }
        if forall i :: 0 <= i < |grants| ==> (cluster, grants[i].statement) !in w.execErrors {
          assert forall i :: 0 <= i < |rest| ==> rest[i] == grants[i + 1];
        }
        if o.err.None? {
          forall i | 0 <= i < |grants|
            ensures (cluster, grants[i].statement) !in w.execErrors
          {
            if i > 0 {
              assert rest[i - 1] == grants[i];
            }
          }
        }
      }
    }
  }

  /** The outcome of applyPermissions on one cluster. */
  function ApplyOutcome(w: World, cluster: string, activityDate: int): Outcome
  {
    if cluster in w.openErrors then Outcome([], Some("failed to connect to cluster " + cluster + ": " + w.openErrors[cluster]))
    else
      var schemas := if cluster in w.eligible then w.eligible[cluster] else Ok([]);
      if schemas.Err? then
        Outcome([QuerySchemas(activityDate)],
                Some("failed to fetch eligible schemas for cluster " + cluster + ": " + schemas.error))
      else Outcome([QuerySchemas(activityDate)] + SchemaEffects(w, cluster, schemas.value), None)
  }

  /** The statements of every schema, one schema after the other, whatever
      became of the schemas before. */
  function SchemaEffects(w: World, cluster: string, schemas: seq<string>): seq<Effect>
  {
    if |schemas| == 0 then []
    else
      SchemaEffects(w, cluster, schemas[..|schemas| - 1])
      + RunGrants(w, cluster, Grants(schemas[|schemas| - 1], ReaderUser, WriterUser)).effects
  }

  /** applyPermissions: a failed grant is logged and the next schema is
      still processed; only a failed connection or schema query is an
      error. The eligible schemas are the provisioner's answer to the query
      with the activity date. */
  method ApplyPermissions(w: World, cluster: string, activityDate: int) returns (err: Option<string>, effects: seq<Effect>)
    ensures Outcome(effects, err) == ApplyOutcome(w, cluster, activityDate)
  {
    if cluster in w.openErrors {
      return Some("failed to connect to cluster " + cluster + ": " + w.openErrors[cluster]), [];
    }
    effects := [QuerySchemas(activityDate)];
    var fetched := if cluster in w.eligible then w.eligible[cluster] else Ok([]);
    if fetched.Err? {
      return Some("failed to fetch eligible schemas for cluster " + cluster + ": " + fetched.error), effects;
    }
    var schemaEffects := GrantEverySchema(w, cluster, fetched.value);
    effects := effects + schemaEffects;
    err := None;
  }

  /** The loop of applyPermissions over the eligible schemas. */
  method GrantEverySchema(w: World, cluster: string, schemas: seq<string>) returns (effects: seq<Effect>)
    ensures effects == SchemaEffects(w, cluster, schemas)
  {
    effects := [];
    for i := 0 to |schemas|
      invariant effects == SchemaEffects(w, cluster, schemas[..i])
    {
      var grantErr, grantEffects := GrantSchemaPermissions(w, cluster, schemas[i], ReaderUser, WriterUser);
      assert schemas[..i + 1][..i] == schemas[..i];
      assert SchemaEffects(w, cluster, schemas[..i + 1]) == SchemaEffects(w, cluster, schemas[..i]) + grantEffects;
      effects := effects + grantEffects;
    }
    assert schemas[..|schemas|] == schemas;
  }

  /** Every schema gets its grants run, in the schemas' order, regardless of
      the failures of the others. */
  lemma {:induction false} SchemaEffectsAppend(w: World, cluster: string, a: seq<string>, b: seq<string>)
    ensures SchemaEffects(w, cluster, a + b) == SchemaEffects(w, cluster, a) + SchemaEffects(w, cluster, b)
    decreases |b|
  {
    if |b| == 0 {
      assert a + b == a;
    } else {
      var init, last := b[..|b| - 1], b[|b| - 1];
      assert (a + b)[..|a + b| - 1] == a + init;
      assert (a + b)[|a + b| - 1] == last;
      SchemaEffectsAppend(w, cluster, a, init);
      var g := RunGrants(w, cluster, Grants(last, ReaderUser, WriterUser)).effects;
      assert SchemaEffects(w, cluster, a + b) == SchemaEffects(w, cluster, a + init) + g;
      assert SchemaEffects(w, cluster, b) == SchemaEffects(w, cluster, init) + g;
      assert (SchemaEffects(w, cluster, a) + SchemaEffects(w, cluster, init)) + g
          == SchemaEffects(w, cluster, a) + (SchemaEffects(w, cluster, init) + g);
    }
  }

  /** The grants of schema i sit between those of the schemas before and
      after it. */
  lemma EverySchemaProcessed(w: World, cluster: string, schemas: seq<string>, i: int)
    requires 0 <= i < |schemas|
    ensures SchemaEffects(w, cluster, schemas)
      == SchemaEffects(w, cluster, schemas[..i])
         + RunGrants(w, cluster, Grants(schemas[i], ReaderUser, WriterUser)).effects
         + SchemaEffects(w, cluster, schemas[i + 1..])
  {
    assert schemas == schemas[..i + 1] + schemas[i + 1..];
    SchemaEffectsAppend(w, cluster, schemas[..i + 1], schemas[i + 1..]);
    assert schemas[..i + 1][..i] == schemas[..i];
  }

  /** The effects of one cluster in the handler's loop: nothing when its
      secret cannot be fetched. */
  function ClusterEffects(w: World, cluster: string, activityDate: int): seq<Effect>
  {
    if GetSecret(w, cluster).Err? then [] else ApplyOutcome(w, cluster, activityDate).effects
  }

  function ClustersEffects(w: World, clusters: seq<string>, activityDate: int): seq<Effect>
  {
    if |clusters| == 0 then []
    else
      ClustersEffects(w, clusters[..|clusters| - 1], activityDate)
      + ClusterEffects(w, clusters[|clusters| - 1], activityDate)
  }

  /** The outcome once the activity date is had: the clusters are listed
      and every one is tried, after which the handler succeeds. */
  function ListedOutcome(env: map<string, string>, w: World, activityDate: int): Outcome
  {
    if w.described.Err? then
      Outcome([], Some("failed to fetch clusters: " + ("failed to describe RDS clusters: " + w.described.error)))
    else
      Outcome(ClustersEffects(w, Matching(ExcludedClusters(env), ClusterPrefix, w.described.value), activityDate), None)
  }

  /** The handler's outcome: the provisioner's password, its connection and
      the activity date must all be had before the clusters are listed. */
  function HandlerOutcome(env: map<string, string>, today: Date, w: World): Outcome
    requires ValidDate(today)
  {
    var provisionerSecret := GetSecret(w, "provisioner-" + Lookup(env, "ENVIRONMENT"));
    if provisionerSecret.Err? then Outcome([], Some("failed to get provisioner DB password: " + provisionerSecret.error))
    else if w.provisionerOpenError.Some? then
      Outcome([], Some("failed to connect to provisioner database: " + w.provisionerOpenError.value))
    else
      match GetActivityDate(env, today)
      case Err(e) => Outcome([], Some("failed to parse activity date: " + e))
      case Ok(activityDate) => ListedOutcome(env, w, activityDate)
  }

  /** The handler from the cluster listing on. */
  method GrantAcrossClusters(env: map<string, string>, w: World, activityDate: int) returns (err: Option<string>, effects: seq<Effect>)
    ensures Outcome(effects, err) == ListedOutcome(env, w, activityDate)
  {
    var fetched := FetchRDSClusters(ExcludedClusters(env), "rds-cluster-multitenant", w.described);
    if fetched.Err? {
      return Some("failed to fetch clusters: " + fetched.error), [];
    }
    effects := ProcessClusters(w, fetched.value, activityDate);
    err := None;
  }

  /** The handler's loop over the selected clusters. */
  method ProcessClusters(w: World, clusters: seq<string>, activityDate: int) returns (effects: seq<Effect>)
    ensures effects == ClustersEffects(w, clusters, activityDate)
  {
    effects := [];
    for i := 0 to |clusters|
      invariant effects == ClustersEffects(w, clusters[..i], activityDate)
    {
      var clusterEffects := ProcessCluster(w, clusters[i], activityDate);
      assert clusters[..i + 1][..i] == clusters[..i];
      assert ClustersEffects(w, clusters[..i + 1], activityDate) == ClustersEffects(w, clusters[..i], activityDate) + clusterEffects;
      effects := effects + clusterEffects;
    }
    assert clusters[..|clusters|] == clusters;
  }

  /** The body of the handler's loop. */
  method ProcessCluster(w: World, cluster: string, activityDate: int) returns (effects: seq<Effect>)
    ensures effects == ClusterEffects(w, cluster, activityDate)
  {
    var clusterDBPassword := GetSecret(w, cluster);
    if clusterDBPassword.Err? {
      return [];
    }
    var err;
    err, effects := ApplyPermissions(w, cluster, activityDate);
  }

  /** Handler */
  method Handler(env: map<string, string>, today: Date, w: World) returns (err: Option<string>, effects: seq<Effect>)
    requires ValidDate(today)
    ensures Outcome(effects, err) == HandlerOutcome(env, today, w)
  {
    var provisionerDBPassword := GetSecret(w, "provisioner-" + Lookup(env, "ENVIRONMENT"));
    if provisionerDBPassword.Err? {
      return Some("failed to get provisioner DB password: " + provisionerDBPassword.error), [];
    }
    if w.provisionerOpenError.Some? {
      return Some("failed to connect to provisioner database: " + w.provisionerOpenError.value), [];
    }
    var activityDate := GetActivityDate(env, today);
    if activityDate.Err? {
      return Some("failed to parse activity date: " + activityDate.error), [];
    }
    err, effects := GrantAcrossClusters(env, w, activityDate.value);
  }

  /** Once the clusters are listed the handler succeeds, whatever happens to
      the secrets, connections and grants of the clusters. */
  lemma HandlerSucceedsAfterListing(env: map<string, string>, today: Date, w: World)
    requires ValidDate(today)
    requires GetSecret(w, "provisioner-" + Lookup(env, "ENVIRONMENT")).Ok? && w.provisionerOpenError.None?
    requires GetActivityDate(env, today).Ok? && w.described.Ok?
    ensures HandlerOutcome(env, today, w).err.None?
  {
  }

  /** Only the listed multitenant clusters that are not excluded are ever
      touched. */
  lemma {:induction false} OnlySelectedClustersTouched(w: World, clusters: seq<string>, activityDate: int, e: Effect)
    requires e in ClustersEffects(w, clusters, activityDate) && e.Exec?
    ensures e.cluster in clusters
    decreases |clusters|
  {
    var init := clusters[..|clusters| - 1];
    var last := clusters[|clusters| - 1];
    if e in ClustersEffects(w, init, activityDate) {
      OnlySelectedClustersTouched(w, init, activityDate, e);
      assert forall x :: x in init ==> x in clusters;
    } else {
      assert e in ClusterEffects(w, last, activityDate);
      OnlyOwnClusterTouched(w, last, activityDate, e);
    }
  }

  lemma OnlyOwnClusterTouched(w: World, cluster: string, activityDate: int, e: Effect)
    requires e in ClusterEffects(w, cluster, activityDate) && e.Exec?
    ensures e.cluster == cluster
  {
    var fetched := if cluster in w.eligible then w.eligible[cluster] else Ok([]);
    if fetched.Ok? {
      SchemaEffectsOnCluster(w, cluster, fetched.value, e);
    }
  }

  lemma {:induction false} SchemaEffectsOnCluster(w: World, cluster: string, schemas: seq<string>, e: Effect)
    requires e in SchemaEffects(w, cluster, schemas)
    ensures e.Exec? && e.cluster == cluster
    decreases |schemas|
  {
    var init := schemas[..|schemas| - 1];
    if e in SchemaEffects(w, cluster, init) {
      SchemaEffectsOnCluster(w, cluster, init, e);
    } else {
      var g := Grants(schemas[|schemas| - 1], ReaderUser, WriterUser);
      RunGrantsPrefix(w, cluster, g);
      var o := RunGrants(w, cluster, g);
      var k :| 0 <= k < |o.effects| && o.effects[k] == e;
    }
  }
}
