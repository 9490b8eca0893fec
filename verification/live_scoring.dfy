/**
 * The per-sample scoring of the live simulation: threshold flags from the batch
 * mean and standard deviation of the motion magnitudes, the spike-then-drop fall
 * heuristic, the 0-100 risk score, the status shown and the risk band.
 * Magnitudes, their mean and their standard deviation are inputs.
 */
module LiveScoring {
  import opened Wrappers
  import opened Alerts

  /** `threshold`: the possible-fall cut-off, two standard deviations above the mean. */
  function AnomalyThreshold(mean: real, std: real): real {
    mean + 2.0 * std
  }

  /** `alert_threshold`: the high-risk cut-off, three and a half standard deviations above the mean. */
  function AlertThreshold(mean: real, std: real): real {
    mean + 3.5 * std
  }

  /** The column `acc_mag > cutoff`. */
  function Exceeds(accMag: seq<real>, cutoff: real): (r: seq<bool>)
    ensures |r| == |accMag|
  {
    seq(|accMag|, i requires 0 <= i < |accMag| => accMag[i] > cutoff)
  }

  /** `Possible_Fall`. */
  function PossibleFallColumn(accMag: seq<real>, mean: real, std: real): (r: seq<bool>)
    ensures |r| == |accMag|
    ensures forall i :: 0 <= i < |accMag| ==> (r[i] <==> accMag[i] > mean + 2.0 * std)
  {
    Exceeds(accMag, AnomalyThreshold(mean, std))
  }

  /** `High_Risk_Alert`. */
  function HighRiskAlertColumn(accMag: seq<real>, mean: real, std: real): (r: seq<bool>)
    ensures |r| == |accMag|
    ensures forall i :: 0 <= i < |accMag| ==> (r[i] <==> accMag[i] > mean + 3.5 * std)
  {
    Exceeds(accMag, AlertThreshold(mean, std))
  }

  /** A high-risk sample is always a possible fall, because the alert threshold is the higher one. */
  lemma HighRiskImpliesPossibleFall(accMag: seq<real>, mean: real, std: real)
    requires std >= 0.0
    ensures AnomalyThreshold(mean, std) <= AlertThreshold(mean, std)
    ensures forall i :: 0 <= i < |accMag| && HighRiskAlertColumn(accMag, mean, std)[i] ==>
      PossibleFallColumn(accMag, mean, std)[i]
  {
  }

  /** With no spread both thresholds are the mean, and only samples strictly above it are flagged. */
  lemma ZeroSpreadFlagsStrictlyAboveMean(accMag: seq<real>, mean: real)
    ensures AnomalyThreshold(mean, 0.0) == AlertThreshold(mean, 0.0) == mean
    ensures forall i :: 0 <= i < |accMag| ==>
      (PossibleFallColumn(accMag, mean, 0.0)[i] <==> accMag[i] > mean)
      && (HighRiskAlertColumn(accMag, mean, 0.0)[i] <==> accMag[i] > mean)
  {
  }

  /**
   * `Fall_Event`: a sample that is neither the first nor the last, is a possible fall,
   * and is followed by a magnitude below the mean.
   */
  function FallEventColumn(accMag: seq<real>, possibleFall: seq<bool>, mean: real): (r: seq<bool>)
    requires |possibleFall| == |accMag|
    ensures |r| == |accMag|
    ensures |r| > 0 ==> !r[0] && !r[|r| - 1]
    ensures forall i :: 0 <= i < |r| && r[i] ==> possibleFall[i]
  {
    seq(|accMag|, i requires 0 <= i < |accMag| =>
      1 <= i < |accMag| - 1 && possibleFall[i] && accMag[i + 1] < mean)
  }

  /** At every inner index, a fall is exactly a possible fall followed by a drop below the mean. */
  lemma FallEventProperties(accMag: seq<real>, possibleFall: seq<bool>, mean: real)
    requires |possibleFall| == |accMag|
    ensures var f := FallEventColumn(accMag, possibleFall, mean);
      forall i :: 1 <= i < |f| - 1 ==> (f[i] <==> possibleFall[i] && accMag[i + 1] < mean)
  {
  }

  /**
   * The fall-pattern loop: resets the `Fall_Event` column to false, then marks each
   * inner sample that is a possible fall followed by a drop below the mean. Only that
   * column is written.
   */
  method MarkFallEvents(accMag: array<real>, possibleFall: array<bool>, fallEvent: array<bool>, mean: real)
    requires possibleFall.Length == accMag.Length && fallEvent.Length == accMag.Length
    requires fallEvent != possibleFall
    modifies fallEvent
    ensures fallEvent[..] == FallEventColumn(accMag[..], possibleFall[..], mean)
  {
    var n := fallEvent.Length;
    var k := 0;
    while k < n
      invariant 0 <= k <= n
      invariant forall j :: 0 <= j < k ==> !fallEvent[j]
    {
      fallEvent[k] := false;
      k := k + 1;
    }
    var i := 1;
    while i < n - 1
      invariant 1 <= i && (n >= 2 ==> i <= n - 1)
      invariant forall j :: 0 <= j < n && (j < 1 || j >= i) ==> !fallEvent[j]
      invariant forall j :: 1 <= j < i && j < n - 1 ==>
        (fallEvent[j] <==> possibleFall[j] && accMag[j + 1] < mean)
    {
      if possibleFall[i] && accMag[i + 1] < mean {
        fallEvent[i] := true;
      }
      i := i + 1;
    }
  }

  /** The worked example: a spike at index 2 followed by a drop below the mean is a fall. */
  lemma FallHeuristicExample()
    ensures var mags := [1.0, 1.0, 2.5, 0.9, 1.0];
      var possible := PossibleFallColumn(mags, 1.0, 0.5);
      possible == [false, false, true, false, false]
      && FallEventColumn(mags, possible, 1.0) == [false, false, true, false, false]
  {
  }

  /** Python's `int()` on a float: truncation toward zero. */
  function Trunc(x: real): int {
    if x >= 0.0 then x.Floor else -((-x).Floor)
  }

  /** Python's `min(a, b)`. */
  function MinReal(a: real, b: real): real {
    if b < a then b else a
  }

  /** The motion term: the magnitude as a fraction of the mean, scaled to 25 and capped there. */
  function MotionTerm(motion: real, mean: real): real
    requires mean > 0.0
  {
    MinReal(motion / mean * 25.0, 25.0)
  }

  /** The 25 points a raised flag adds. */
  function FlagPoints(flag: bool): real {
    if flag then 25.0 else 0.0
  }

  /** Number of raised flags. */
  function FlagCount(isAnomaly: bool, isAlert: bool, isFall: bool): nat {
    (if isAnomaly then 1 else 0) + (if isAlert then 1 else 0) + (if isFall then 1 else 0)
  }

  /** The risk score of one sample. */
  function RiskScore(motion: real, mean: real, isAnomaly: bool, isAlert: bool, isFall: bool): (r: int)
    requires mean > 0.0 && motion >= 0.0
    ensures 0 <= r <= 100
  {
    var risk := MotionTerm(motion, mean) + FlagPoints(isAnomaly) + FlagPoints(isAlert) + FlagPoints(isFall);
    Trunc(MinReal(risk, 100.0))
  }

  /** Shifting a non-negative real by a whole number shifts its truncation by that number. */
  lemma TruncShift(x: real, k: nat)
    requires x >= 0.0
    ensures Trunc(x + k as real) == Trunc(x) + k
  {
    var f := x.Floor;
    assert f as real <= x < f as real + 1.0;
    assert (f + k) as real <= x + k as real < (f + k) as real + 1.0;
  }

  /**
   * The score is exactly 25 points per raised flag plus the truncated motion term, which
   * lies in [0, 25]; the outer cap at 100 never changes the sum.
   */
  lemma RiskScoreDecomposes(motion: real, mean: real, isAnomaly: bool, isAlert: bool, isFall: bool)
    requires mean > 0.0 && motion >= 0.0
    ensures 0 <= Trunc(MotionTerm(motion, mean)) <= 25
    ensures MotionTerm(motion, mean) + FlagPoints(isAnomaly) + FlagPoints(isAlert) + FlagPoints(isFall) <= 100.0
    ensures RiskScore(motion, mean, isAnomaly, isAlert, isFall)
            == 25 * FlagCount(isAnomaly, isAlert, isFall) + Trunc(MotionTerm(motion, mean))
  {
    var m := MotionTerm(motion, mean);
    assert 0.0 <= motion / mean;
    assert 0.0 <= m <= 25.0;
    var k := 25 * FlagCount(isAnomaly, isAlert, isFall);
    assert FlagPoints(isAnomaly) + FlagPoints(isAlert) + FlagPoints(isFall) == k as real;
    TruncShift(m, k);
    assert Trunc(25.0) == 25;
  }

  /** Raising any one flag, the rest held fixed, never lowers the score. */
  lemma RiskScoreMonotoneInFlags(motion: real, mean: real, isAnomaly: bool, isAlert: bool, isFall: bool)
    requires mean > 0.0 && motion >= 0.0
    ensures RiskScore(motion, mean, isAnomaly, isAlert, isFall) <= RiskScore(motion, mean, true, isAlert, isFall)
    ensures RiskScore(motion, mean, isAnomaly, isAlert, isFall) <= RiskScore(motion, mean, isAnomaly, true, isFall)
    ensures RiskScore(motion, mean, isAnomaly, isAlert, isFall) <= RiskScore(motion, mean, isAnomaly, isAlert, true)
  {
    RiskScoreDecomposes(motion, mean, isAnomaly, isAlert, isFall);
    RiskScoreDecomposes(motion, mean, true, isAlert, isFall);
    RiskScoreDecomposes(motion, mean, isAnomaly, true, isFall);
    RiskScoreDecomposes(motion, mean, isAnomaly, isAlert, true);
  }

  /** A still sample with no flag scores zero. */
  lemma StillSampleScoresZero(mean: real)
    requires mean > 0.0
    ensures RiskScore(0.0, mean, false, false, false) == 0
  {
  }

  /**
   * The accumulation as the simulation writes it: start at zero, add the motion term,
   * add 25 per raised flag, cap at 100 and truncate.
   */
  method ComputeRiskScore(motion: real, mean: real, isAnomaly: bool, isAlert: bool, isFall: bool)
    returns (risk: int)
    requires mean > 0.0 && motion >= 0.0
    ensures risk == RiskScore(motion, mean, isAnomaly, isAlert, isFall)
    ensures 0 <= risk <= 100
  {
    var acc: real := 0.0;
    acc := acc + MinReal(motion / mean * 25.0, 25.0);
    if isAnomaly {
      acc := acc + 25.0;
    }
    if isAlert {
      acc := acc + 25.0;
    }
    if isFall {
      acc := acc + 25.0;
    }
    risk := Trunc(MinReal(acc, 100.0));
  }

  /** The status line shown for a sample. */
  datatype Status = LikelyFall | HighRisk | Caution | Normal

  /** The status precedence: fall, then high-risk alert, then anomaly, otherwise normal. */
  function StatusOf(isFall: bool, isAlert: bool, isAnomaly: bool): (s: Status)
    ensures s == LikelyFall <==> isFall
    ensures s == HighRisk <==> !isFall && isAlert
    ensures s == Caution <==> !isFall && !isAlert && isAnomaly
    ensures s == Normal <==> !isFall && !isAlert && !isAnomaly
  {
    if isFall then LikelyFall
    else if isAlert then HighRisk
    else if isAnomaly then Caution
    else Normal
  }

  /**
   * The status shown agrees with the alert the alert system raises for the same flags:
   * a likely fall is a fall alert, a high-risk status a motion-spike alert, a caution an
   * anomaly alert.
   */
  lemma StatusAgreesWithAlert(activity: string, risk: int, isFall: bool, isAlert: bool, isAnomaly: bool)
    ensures var s := StatusOf(isFall, isAlert, isAnomaly);
      var c := Classify(activity, risk, isFall, isAnomaly, isAlert);
      (s == LikelyFall <==> c == Some(FallDetected))
      && (s == HighRisk <==> c == Some(HighRiskMotion))
      && (s == Caution <==> c == Some(AnomalyDetected))
  {
  }

  /** The risk band shown for a score. */
  datatype RiskBand = Low | Medium | High | CriticalBand

  /** The band cut-offs 30, 60 and 85. */
  function BandOf(risk: int): (b: RiskBand)
    ensures b == Low <==> risk < 30
    ensures b == Medium <==> 30 <= risk < 60
    ensures b == High <==> 60 <= risk < 85
    ensures b == CriticalBand <==> 85 <= risk
  {
    if risk < 30 then Low
    else if risk < 60 then Medium
    else if risk < 85 then High
    else CriticalBand
  }

  /** Position of a band, Low first. */
  function BandRank(b: RiskBand): nat {
    match b
    case Low => 0
    case Medium => 1
    case High => 2
    case CriticalBand => 3
  }

  /** A higher score never shows a lower band. */
  lemma BandMonotone(r1: int, r2: int)
    requires r1 <= r2
    ensures BandRank(BandOf(r1)) <= BandRank(BandOf(r2))
  {
  }

  /** With no flag raised the score is at most 25, in the Low band. */
  lemma NoFlagsIsLowRisk(motion: real, mean: real)
    requires mean > 0.0 && motion >= 0.0
    ensures RiskScore(motion, mean, false, false, false) <= 25
    ensures BandOf(RiskScore(motion, mean, false, false, false)) == Low
  {
    RiskScoreDecomposes(motion, mean, false, false, false);
  }

  /**
   * Every sample of a batch, scored from the columns: its score is in [0, 100]; a normal
   * status always shows Low risk; a likely fall or a high-risk status is at least 50 and
   * never Low, because each of those flags implies the possible-fall flag.
   */
  lemma SampleAssessmentConsistent(accMag: seq<real>, mean: real, std: real, i: int)
    requires mean > 0.0 && std >= 0.0
    requires 0 <= i < |accMag| && forall j :: 0 <= j < |accMag| ==> accMag[j] >= 0.0
    ensures var possible := PossibleFallColumn(accMag, mean, std);
      var alert := HighRiskAlertColumn(accMag, mean, std);
      var fall := FallEventColumn(accMag, possible, mean);
      var risk := RiskScore(accMag[i], mean, possible[i], alert[i], fall[i]);
      var status := StatusOf(fall[i], alert[i], possible[i]);
      0 <= risk <= 100
      && (status == Normal ==> BandOf(risk) == Low)
      && (status in {LikelyFall, HighRisk} ==> risk >= 50 && BandOf(risk) != Low)
      && (fall[i] && alert[i] ==> risk >= 75 && BandRank(BandOf(risk)) >= BandRank(High))
  {
    var possible := PossibleFallColumn(accMag, mean, std);
    var alert := HighRiskAlertColumn(accMag, mean, std);
    var fall := FallEventColumn(accMag, possible, mean);
    HighRiskImpliesPossibleFall(accMag, mean, std);
    RiskScoreDecomposes(accMag[i], mean, possible[i], alert[i], fall[i]);
  }
}
