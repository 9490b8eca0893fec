/**
 * The read-only queries over alert lists: the session summary, the log statistics
 * and the most recent log rows. pandas' `value_counts().to_dict()` becomes a map from
 * each value that occurs to its number of occurrences.
 */
module AlertCounts {
  import opened Wrappers
  import opened TextOrder
  import opened Alerts

  /** Number of occurrences of `x` in `xs`. */
  function Count<T(==)>(xs: seq<T>, x: T): (n: nat)
    ensures n <= |xs|
    ensures n == 0 <==> x !in xs
  {
    if xs == [] then 0
    else
      assert xs == xs[..|xs| - 1] + [xs[|xs| - 1]];
      Count(xs[..|xs| - 1], x) + (if xs[|xs| - 1] == x then 1 else 0)
  }

  /** Number of elements of `xs` that belong to `keys` (pandas `isin`). */
  function CountIn<T(==)>(xs: seq<T>, keys: set<T>): (n: nat)
    ensures n <= |xs|
  {
    if xs == [] then 0
    else CountIn(xs[..|xs| - 1], keys) + (if xs[|xs| - 1] in keys then 1 else 0)
  }

  /** Counting membership in a two-element set adds up the two counts. */
  lemma {:induction false} CountInPair<T>(xs: seq<T>, a: T, b: T)
    requires a != b
    ensures CountIn(xs, {a, b}) == Count(xs, a) + Count(xs, b)
  {
    if xs != [] {
      CountInPair(xs[..|xs| - 1], a, b);
    }
  }

  /** `value_counts().to_dict()`: each value that occurs, with how often. */
  function ValueCounts<T(==,!new)>(xs: seq<T>): (m: map<T, nat>)
    ensures forall x :: x in m <==> x in xs
    ensures forall x :: x in m ==> m[x] == Count(xs, x) && m[x] > 0
  {
    map x | x in xs :: Count(xs, x)
  }

  /** The count stored for `k`, zero when `k` is not a key. */
  function Get<T>(m: map<T, nat>, k: T): nat {
    if k in m then m[k] else 0
  }

  /** The severity column of a list of alerts. */
  function Severities(alerts: seq<Alert>): (s: seq<Severity>)
    ensures |s| == |alerts|
  {
    seq(|alerts|, i requires 0 <= i < |alerts| => alerts[i].severity)
  }

  /** The alert_type column of a list of alerts. */
  function Types(alerts: seq<Alert>): (s: seq<AlertType>)
    ensures |s| == |alerts|
  {
    seq(|alerts|, i requires 0 <= i < |alerts| => alerts[i].alertType)
  }

  /** The activity column of a list of alerts. */
  function Activities(alerts: seq<Alert>): (s: seq<string>)
    ensures |s| == |alerts|
  {
    seq(|alerts|, i requires 0 <= i < |alerts| => alerts[i].activity)
  }

  /** Sum of a by-severity breakdown over every severity. */
  function SeverityTotal(m: map<Severity, nat>): nat {
    Get(m, Info) + Get(m, Warning) + Get(m, Critical) + Get(m, Emergency)
  }

  /** Sum of a by-type breakdown over every alert type. */
  function TypeTotal(m: map<AlertType, nat>): nat {
    Get(m, FallDetected) + Get(m, HighRiskMotion) + Get(m, AnomalyDetected)
    + Get(m, HighRiskActivity) + Get(m, ElevatedRisk)
  }

  /** Every element has some severity, so the per-severity counts add up to the length. */
  lemma {:induction false} SeverityCountsSum(s: seq<Severity>)
    ensures Count(s, Info) + Count(s, Warning) + Count(s, Critical) + Count(s, Emergency) == |s|
  {
    if s != [] {
      var init := s[..|s| - 1];
      SeverityCountsSum(init);
      assert Count(s, Info) == Count(init, Info) + (if s[|s| - 1] == Info then 1 else 0);
      assert Count(s, Warning) == Count(init, Warning) + (if s[|s| - 1] == Warning then 1 else 0);
      assert Count(s, Critical) == Count(init, Critical) + (if s[|s| - 1] == Critical then 1 else 0);
      assert Count(s, Emergency) == Count(init, Emergency) + (if s[|s| - 1] == Emergency then 1 else 0);
    }
  }

  /** Every element has some alert type, so the per-type counts add up to the length. */
  lemma {:induction false} TypeCountsSum(s: seq<AlertType>)
    ensures Count(s, FallDetected) + Count(s, HighRiskMotion) + Count(s, AnomalyDetected)
            + Count(s, HighRiskActivity) + Count(s, ElevatedRisk) == |s|
  {
    if s != [] {
      var init := s[..|s| - 1];
      TypeCountsSum(init);
      assert Count(s, FallDetected) == Count(init, FallDetected) + (if s[|s| - 1] == FallDetected then 1 else 0);
      assert Count(s, HighRiskMotion) == Count(init, HighRiskMotion) + (if s[|s| - 1] == HighRiskMotion then 1 else 0);
      assert Count(s, AnomalyDetected) == Count(init, AnomalyDetected) + (if s[|s| - 1] == AnomalyDetected then 1 else 0);
      assert Count(s, HighRiskActivity) == Count(init, HighRiskActivity) + (if s[|s| - 1] == HighRiskActivity then 1 else 0);
      assert Count(s, ElevatedRisk) == Count(init, ElevatedRisk) + (if s[|s| - 1] == ElevatedRisk then 1 else 0);
    }
  }

  /** The severity breakdown of a list sums to its length. */
  lemma SeverityBreakdownSums(alerts: seq<Alert>)
    ensures SeverityTotal(ValueCounts(Severities(alerts))) == |alerts|
  {
    var s := Severities(alerts);
    SeverityCountsSum(s);
    assert forall k :: Get(ValueCounts(s), k) == Count(s, k);
  }

  /** The type breakdown of a list sums to its length. */
  lemma TypeBreakdownSums(alerts: seq<Alert>)
    ensures TypeTotal(ValueCounts(Types(alerts))) == |alerts|
  {
    var s := Types(alerts);
    TypeCountsSum(s);
    assert forall k :: Get(ValueCounts(s), k) == Count(s, k);
  }

  /** A value is in a column exactly when some alert carries it. */
  lemma ColumnMembership(alerts: seq<Alert>)
    ensures forall k :: k in Severities(alerts) <==> exists i :: 0 <= i < |alerts| && alerts[i].severity == k
    ensures forall k :: k in Types(alerts) <==> exists i :: 0 <= i < |alerts| && alerts[i].alertType == k
    ensures forall a :: a in Activities(alerts) <==> exists i :: 0 <= i < |alerts| && alerts[i].activity == a
  {
    forall k | exists i :: 0 <= i < |alerts| && alerts[i].severity == k ensures k in Severities(alerts) {
      var i :| 0 <= i < |alerts| && alerts[i].severity == k;
      assert Severities(alerts)[i] == k;
    }
    forall k | exists i :: 0 <= i < |alerts| && alerts[i].alertType == k ensures k in Types(alerts) {
      var i :| 0 <= i < |alerts| && alerts[i].alertType == k;
      assert Types(alerts)[i] == k;
    }
    forall a | exists i :: 0 <= i < |alerts| && alerts[i].activity == a ensures a in Activities(alerts) {
      var i :| 0 <= i < |alerts| && alerts[i].activity == a;
      assert Activities(alerts)[i] == a;
    }
  }

  /** The session summary returned by `get_session_summary`. */
  datatype Summary = Summary(
    totalAlerts: nat,
    bySeverity: map<Severity, nat>,
    byType: map<AlertType, nat>,
    criticalCount: nat)

  /** The summary of an empty session. */
  const EmptySummary := Summary(0, map[], map[], 0)

  /** The summary of a list of session alerts. */
  function Summarize(alerts: seq<Alert>): (r: Summary)
    ensures r.totalAlerts == |alerts|
    ensures r.bySeverity == ValueCounts(Severities(alerts))
    ensures r.byType == ValueCounts(Types(alerts))
    ensures r.criticalCount == Count(Severities(alerts), Critical) + Count(Severities(alerts), Emergency)
    ensures forall k :: k in r.bySeverity <==> exists i :: 0 <= i < |alerts| && alerts[i].severity == k
    ensures forall k :: k in r.byType <==> exists i :: 0 <= i < |alerts| && alerts[i].alertType == k
    ensures SeverityTotal(r.bySeverity) == r.totalAlerts
    ensures TypeTotal(r.byType) == r.totalAlerts
    ensures r.criticalCount == Get(r.bySeverity, Critical) + Get(r.bySeverity, Emergency)
    ensures alerts == [] <==> r == EmptySummary
  {
    if alerts == [] then
      assert Severities(alerts) == [] && Types(alerts) == [];
      EmptySummary
    else
      var sev := Severities(alerts);
      var types := Types(alerts);
      SeverityBreakdownSums(alerts);
      TypeBreakdownSums(alerts);
      CountInPair(sev, Critical, Emergency);
      ColumnMembership(alerts);
      Summary(|alerts|, ValueCounts(sev), ValueCounts(types), CountIn(sev, {Critical, Emergency}))
  }

  /** The overall statistics `get_alert_statistics` computes from the log (its count fields). */
  datatype Statistics = Statistics(
    totalAlerts: nat,
    severityBreakdown: map<Severity, nat>,
    typeBreakdown: map<AlertType, nat>,
    activityBreakdown: map<string, nat>,
    emergencyCount: nat,
    criticalCount: nat)

  /** The rows of a log, none when the log file does not exist. */
  function Rows(log: Option<seq<Alert>>): seq<Alert> {
    log.GetOr([])
  }

  /** Statistics over the log, or `None` when there is no log. */
  function LogStatistics(log: Option<seq<Alert>>): (r: Option<Statistics>)
    ensures r.None? <==> log.None?
    ensures r.Some? ==>
      var st := r.value;
      var rows := log.value;
      st.totalAlerts == |rows|
      && st.severityBreakdown == ValueCounts(Severities(rows))
      && st.typeBreakdown == ValueCounts(Types(rows))
      && st.activityBreakdown == ValueCounts(Activities(rows))
      && st.emergencyCount == Count(Severities(rows), Emergency)
      && st.criticalCount == Count(Severities(rows), Critical)
      && SeverityTotal(st.severityBreakdown) == st.totalAlerts
      && TypeTotal(st.typeBreakdown) == st.totalAlerts
      && st.emergencyCount == Get(st.severityBreakdown, Emergency)
      && st.criticalCount == Get(st.severityBreakdown, Critical)
      && (forall a :: a in st.activityBreakdown <==> exists i :: 0 <= i < |rows| && rows[i].activity == a)
      && (forall a :: a in st.activityBreakdown ==> 0 < st.activityBreakdown[a] <= st.totalAlerts)
  {
    match log
    case None => None
    case Some(rows) =>
      var sev := Severities(rows);
      var acts := Activities(rows);
      SeverityBreakdownSums(rows);
      TypeBreakdownSums(rows);
      ColumnMembership(rows);
      Some(Statistics(|rows|, ValueCounts(sev), ValueCounts(Types(rows)), ValueCounts(acts),
                      Count(sev, Emergency), Count(sev, Critical)))
  }

  /**
   * `DataFrame.tail(n)`: the last `n` rows (all of them when `n` is larger); for a
   * negative `n`, every row except the first `-n`.
   */
  function Tail(rows: seq<Alert>, n: int): (r: seq<Alert>)
    ensures n >= 0 ==> |r| == if n <= |rows| then n else |rows|
    ensures n < 0 ==> |r| == if -n <= |rows| then |rows| + n else 0
    ensures exists k :: 0 <= k <= |rows| && r == rows[k..]
  {
    if n >= 0 then
      (if n <= |rows| then rows[|rows| - n..] else assert rows == rows[0..]; rows)
    else
      (if -n <= |rows| then rows[-n..] else assert rows[|rows|..] == []; [])
  }

  /** Timestamps never increase along `s`. */
  predicate SortedByTimestampDesc(s: seq<Alert>) {
    forall i, j :: 0 <= i < j < |s| ==> LexLeq(s[j].timestamp, s[i].timestamp)
  }

  /** Inserts `x` into a list sorted newest first. */
  function InsertByTimestampDesc(x: Alert, s: seq<Alert>): (r: seq<Alert>)
    requires SortedByTimestampDesc(s)
    ensures multiset(r) == multiset(s) + multiset{x}
    ensures SortedByTimestampDesc(r)
  {
    if s == [] then [x]
    else if LexLeq(s[0].timestamp, x.timestamp) then
      assert forall j :: 0 <= j < |s| ==> LexLeq(s[j].timestamp, x.timestamp) by {
        forall j | 0 < j < |s| ensures LexLeq(s[j].timestamp, x.timestamp) {
          LexLeqTransitive(s[j].timestamp, s[0].timestamp, x.timestamp);
        }
      }
      [x] + s
    else
      LexLeqTotal(s[0].timestamp, x.timestamp);
      assert s == [s[0]] + s[1..];
      var rest := InsertByTimestampDesc(x, s[1..]);
      assert forall e :: e in rest ==> LexLeq(e.timestamp, s[0].timestamp) by {
        forall e | e in rest ensures LexLeq(e.timestamp, s[0].timestamp) {
          assert e in multiset(rest);
          if e != x {
            assert e in multiset(s[1..]);
            var j :| 0 <= j < |s[1..]| && s[1..][j] == e;
            assert s[j + 1] == e;
          }
        }
      }
      var r := [s[0]] + rest;
      assert forall j :: 0 < j < |r| ==> r[j] in rest by {
        forall j | 0 < j < |r| ensures r[j] in rest {
          assert r[j] == rest[j - 1];
        }
      }
      r
  }

  /** `sort_values('timestamp', ascending=False)`: newest first, same rows. */
  function SortByTimestampDesc(s: seq<Alert>): (r: seq<Alert>)
    ensures multiset(r) == multiset(s)
    ensures SortedByTimestampDesc(r)
  {
    if s == [] then []
    else
      assert s == [s[0]] + s[1..];
      InsertByTimestampDesc(s[0], SortByTimestampDesc(s[1..]))
  }

  /** `get_recent_alerts(n)`: the last rows of the log, newest first. */
  function RecentAlerts(log: Option<seq<Alert>>, n: int): (r: seq<Alert>)
    ensures log.None? ==> r == []
    ensures multiset(r) == multiset(Tail(Rows(log), n))
    ensures SortedByTimestampDesc(r)
    ensures n >= 0 ==> |r| == if n <= |Rows(log)| then n else |Rows(log)|
  {
    match log
    case None => []
    case Some(rows) =>
      var r := SortByTimestampDesc(Tail(rows, n));
      assert |r| == |multiset(r)|;
      r
  }
}
