/**
 * The alert taxonomy and the decision cascade of `SafetyAlertSystem.generate_alert`:
 * one sample's activity label, risk score and three motion flags give at most one
 * alert, chosen by a first-match precedence.
 */
module Alerts {
  import opened Wrappers

  /** Alert severities, INFO lowest. */
  datatype Severity = Info | Warning | Critical | Emergency

  /** The rank the system gives each severity (INFO 0 up to EMERGENCY 3). */
  function Rank(s: Severity): nat {
    match s
    case Info => 0
    case Warning => 1
    case Critical => 2
    case Emergency => 3
  }

  /** The kinds of alert the generator can raise. */
  datatype AlertType = FallDetected | HighRiskMotion | AnomalyDetected | HighRiskActivity | ElevatedRisk

  /** Each kind of alert is raised with one fixed severity. */
  function SeverityOf(t: AlertType): Severity {
    match t
    case FallDetected => Emergency
    case HighRiskMotion => Critical
    case AnomalyDetected => Warning
    case HighRiskActivity => Warning
    case ElevatedRisk => Info
  }

  /**
   * One alert record; the persisted log stores the same columns. `sampleIndex` is
   * `None` when the caller gave no sample index.
   */
  datatype Alert = Alert(
    timestamp: string,
    severity: Severity,
    alertType: AlertType,
    activity: string,
    riskScore: int,
    motionIntensity: real,
    message: string,
    actionRequired: string,
    sampleIndex: Option<int>)

  /** ASCII upper-casing of one character. */
  function UpperChar(c: char): char {
    if 'a' <= c <= 'z' then (c as int - 'a' as int + 'A' as int) as char else c
  }

  /** `str.upper()` restricted to ASCII letters. */
  function Upper(s: string): string {
    seq(|s|, i requires 0 <= i < |s| => UpperChar(s[i]))
  }

  /** The keys of the high-risk-activity table; its values are never read. */
  const HighRiskActivityNames: set<string> := {"STAIRS", "RUNNING", "JOGGING"}

  /** `a` and `b` are the same string up to the case of ASCII letters. */
  predicate EqualIgnoringCase(a: string, b: string) {
    |a| == |b| && forall i :: 0 <= i < |a| ==> UpperChar(a[i]) == UpperChar(b[i])
  }

  /** Two strings upper-case to the same string exactly when they are equal ignoring case. */
  lemma UpperEqualIffEqualIgnoringCase(a: string, b: string)
    ensures Upper(a) == Upper(b) <==> EqualIgnoringCase(a, b)
  {
    if EqualIgnoringCase(a, b) {
      assert forall i :: 0 <= i < |a| ==> Upper(a)[i] == Upper(b)[i];
    }
    if Upper(a) == Upper(b) {
      assert forall i :: 0 <= i < |a| ==> UpperChar(a[i]) == Upper(a)[i] == Upper(b)[i] == UpperChar(b[i]);
    }
  }

  /** The activity label matches the high-risk table, ignoring case. */
  predicate IsHighRiskActivity(activity: string)
    ensures IsHighRiskActivity(activity) <==>
      EqualIgnoringCase(activity, "STAIRS") || EqualIgnoringCase(activity, "RUNNING")
      || EqualIgnoringCase(activity, "JOGGING")
  {
    assert Upper("STAIRS") == "STAIRS" && Upper("RUNNING") == "RUNNING" && Upper("JOGGING") == "JOGGING";
    UpperEqualIffEqualIgnoringCase(activity, "STAIRS");
    UpperEqualIffEqualIgnoringCase(activity, "RUNNING");
    UpperEqualIffEqualIgnoringCase(activity, "JOGGING");
    Upper(activity) in HighRiskActivityNames
  }

  /** Upper-casing is idempotent, so the match ignores case. */
  lemma UpperIdempotent(s: string)
    ensures Upper(Upper(s)) == Upper(s)
    ensures IsHighRiskActivity(Upper(s)) == IsHighRiskActivity(s)
  {
    assert forall i :: 0 <= i < |s| ==> UpperChar(UpperChar(s[i])) == UpperChar(s[i]);
  }

  /** The first-match cascade of `generate_alert`: which kind of alert, if any. */
  function Classify(activity: string, riskScore: int, isFall: bool, isAnomaly: bool, isHighAlert: bool): (r: Option<AlertType>)
    ensures r.Some? ==> Triggered(r.value, activity, riskScore, isFall, isAnomaly, isHighAlert)
    ensures r.None? <==> !isFall && !isHighAlert && !isAnomaly && !IsHighRiskActivity(activity) && riskScore < 60
  {
    if isFall then Some(FallDetected)
    else if isHighAlert then Some(HighRiskMotion)
    else if isAnomaly || IsHighRiskActivity(activity) then
      (if isAnomaly then Some(AnomalyDetected) else Some(HighRiskActivity))
    else if riskScore >= 60 then Some(ElevatedRisk)
    else None
  }

  /** The condition each kind of alert stands for, taken on its own. */
  predicate Triggered(t: AlertType, activity: string, riskScore: int, isFall: bool, isAnomaly: bool, isHighAlert: bool) {
    match t
    case FallDetected => isFall
    case HighRiskMotion => isHighAlert
    case AnomalyDetected => isAnomaly
    case HighRiskActivity => IsHighRiskActivity(activity)
    case ElevatedRisk => riskScore >= 60
  }

  /** The precedence of each kind: a higher number wins. */
  function Priority(t: AlertType): nat {
    match t
    case FallDetected => 4
    case HighRiskMotion => 3
    case AnomalyDetected => 2
    case HighRiskActivity => 1
    case ElevatedRisk => 0
  }

  /**
   * The cascade is "raise the highest-priority triggered kind": no alert exactly when
   * nothing is triggered, and otherwise a triggered kind that outranks every other
   * triggered kind.
   */
  lemma ClassifyPicksHighestPriority(activity: string, riskScore: int, isFall: bool, isAnomaly: bool, isHighAlert: bool)
    ensures var r := Classify(activity, riskScore, isFall, isAnomaly, isHighAlert);
      (r.None? <==> forall t: AlertType :: !Triggered(t, activity, riskScore, isFall, isAnomaly, isHighAlert))
      && (r.Some? ==> Triggered(r.value, activity, riskScore, isFall, isAnomaly, isHighAlert)
                      && forall t: AlertType :: Triggered(t, activity, riskScore, isFall, isAnomaly, isHighAlert)
                           ==> Priority(t) <= Priority(r.value))
  {
    var r := Classify(activity, riskScore, isFall, isAnomaly, isHighAlert);
    forall t: AlertType | Triggered(t, activity, riskScore, isFall, isAnomaly, isHighAlert)
      ensures r.Some? && Priority(t) <= Priority(r.value)
    {
      match t
      case FallDetected =>
      case HighRiskMotion =>
      case AnomalyDetected =>
      case HighRiskActivity =>
      case ElevatedRisk =>
    }
    if r.Some? {
      assert Triggered(r.value, activity, riskScore, isFall, isAnomaly, isHighAlert);
    }
  }

  /** The alert raised is at least as severe as every condition that holds. */
  lemma ClassifyIsMostSevere(activity: string, riskScore: int, isFall: bool, isAnomaly: bool, isHighAlert: bool, t: AlertType)
    requires Triggered(t, activity, riskScore, isFall, isAnomaly, isHighAlert)
    ensures var r := Classify(activity, riskScore, isFall, isAnomaly, isHighAlert);
      r.Some? && Rank(SeverityOf(t)) <= Rank(SeverityOf(r.value))
  {
    ClassifyPicksHighestPriority(activity, riskScore, isFall, isAnomaly, isHighAlert);
  }

  /** The message and recommended action that go with each kind of alert. */
  function Describe(t: AlertType, activity: string): (string, string) {
    match t
    case FallDetected =>
      ("\U{1F6A8} EMERGENCY: Fall detected during " + activity,
       "Immediate medical assistance required")
    case HighRiskMotion =>
      ("\U{26A0}\U{FE0F} CRITICAL: Dangerous motion spike during " + activity,
       "Monitor closely, prepare for intervention")
    case AnomalyDetected =>
      ("\U{1F50E} WARNING: Unusual movement pattern during " + activity,
       "Increase monitoring frequency")
    case HighRiskActivity =>
      ("\U{26A1} WARNING: Performing high-risk activity: " + activity,
       "Ensure safety measures in place")
    case ElevatedRisk =>
      ("\U{2139}\U{FE0F} INFO: Elevated risk level during " + activity,
       "Continue monitoring")
  }

  /**
   * The alert record `generate_alert` builds for one sample (before it is appended to
   * the session), or `None` when no alert is needed.
   */
  function NewAlert(timestamp: string, activity: string, riskScore: int, motionIntensity: real,
                    isFall: bool, isAnomaly: bool, isHighAlert: bool, sampleIndex: Option<int>): (r: Option<Alert>)
    // a fall always wins, whatever the other inputs
    ensures isFall ==> r.Some? && r.value.severity == Emergency && r.value.alertType == FallDetected
    // then a high-risk motion spike
    ensures !isFall && isHighAlert ==> r.Some? && r.value.severity == Critical && r.value.alertType == HighRiskMotion
    // then the warning tier: anomaly before a high-risk activity name
    ensures !isFall && !isHighAlert ==>
      ((r.Some? && r.value.severity == Warning) <==> (isAnomaly || IsHighRiskActivity(activity)))
    ensures !isFall && !isHighAlert && r.Some? && r.value.severity == Warning ==>
      r.value.alertType == (if isAnomaly then AnomalyDetected else HighRiskActivity)
    // then elevated risk, otherwise nothing
    ensures !isFall && !isHighAlert && !isAnomaly && !IsHighRiskActivity(activity) ==>
      (r.Some? <==> riskScore >= 60) && (r.Some? ==> r.value.severity == Info && r.value.alertType == ElevatedRisk)
    // every alert copies its inputs unchanged and is ranked by its kind
    ensures r.Some? ==>
      r.value.timestamp == timestamp && r.value.activity == activity && r.value.riskScore == riskScore
      && r.value.motionIntensity == motionIntensity && r.value.sampleIndex == sampleIndex
      && r.value.severity == SeverityOf(r.value.alertType)
  {
    match Classify(activity, riskScore, isFall, isAnomaly, isHighAlert)
    case None => None
    case Some(t) =>
      var (message, action) := Describe(t, activity);
      Some(Alert(timestamp, SeverityOf(t), t, activity, riskScore, motionIntensity, message, action, sampleIndex))
  }

  /** The worked cases: a fall while walking, stairs, and a seated sample at two risk scores. */
  lemma ConcreteCases()
    ensures var r := NewAlert("t", "WALKING", 10, 0.0, true, false, false, None);
      r.Some? && r.value.severity == Emergency && r.value.alertType == FallDetected
    ensures var r := NewAlert("t", "STAIRS", 40, 0.0, false, false, false, None);
      r.Some? && r.value.severity == Warning && r.value.alertType == HighRiskActivity
    ensures var r := NewAlert("t", "stairs", 40, 0.0, false, false, false, None);
      r.Some? && r.value.severity == Warning && r.value.alertType == HighRiskActivity
    ensures var r := NewAlert("t", "SITTING", 65, 0.0, false, false, false, None);
      r.Some? && r.value.severity == Info && r.value.alertType == ElevatedRisk
    ensures NewAlert("t", "SITTING", 20, 0.0, false, false, false, None).None?
  {
    assert Upper("STAIRS") == "STAIRS";
    assert Upper("stairs") == "STAIRS";
    assert Upper("SITTING") == "SITTING";
    assert "SITTING" !in HighRiskActivityNames;
  }
}
