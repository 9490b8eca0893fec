/**
 * `SafetyAlertSystem`: the alerts of the current session, kept in memory, and the
 * persisted alert log. The log file is modelled by its rows: `None` while the file
 * does not exist.
 */
module AlertSystem {
  import opened Wrappers
  import opened Alerts
  import opened AlertCounts

  /** The log after saving `alert`: unchanged for `None`, otherwise one row appended (creating the log if needed). */
  function LogAfterSave(log: Option<seq<Alert>>, alert: Option<Alert>): (r: Option<seq<Alert>>)
    ensures alert.None? ==> r == log
    ensures alert.Some? ==> r.Some? && |r.value| == |Rows(log)| + 1
    ensures alert.Some? ==> r.value[..|Rows(log)|] == Rows(log) && r.value[|Rows(log)|] == alert.value
  {
    match alert
    case None => log
    case Some(a) => Some(Rows(log) + [a])
  }

  /** The alerts among `alerts` that are present, in order. */
  function Present(alerts: seq<Option<Alert>>): seq<Alert> {
    if alerts == [] then []
    else Present(alerts[..|alerts| - 1]) + (match alerts[|alerts| - 1] case Some(a) => [a] case None => [])
  }

  /** The log after saving each of `alerts` in turn. */
  function SaveAll(log: Option<seq<Alert>>, alerts: seq<Option<Alert>>): Option<seq<Alert>> {
    if alerts == [] then log
    else LogAfterSave(SaveAll(log, alerts[..|alerts| - 1]), alerts[|alerts| - 1])
  }

  /**
   * Saving is cumulative: after any number of saves the log holds its earlier rows,
   * untouched, followed by exactly the saved alerts in the order they were saved.
   */
  lemma {:induction false} SaveAllAppends(log: Option<seq<Alert>>, alerts: seq<Option<Alert>>)
    ensures Rows(SaveAll(log, alerts)) == Rows(log) + Present(alerts)
    ensures SaveAll(log, alerts).Some? <==> log.Some? || Present(alerts) != []
  {
    if alerts != [] {
      var init := alerts[..|alerts| - 1];
      SaveAllAppends(log, init);
      match alerts[|alerts| - 1]
      case None =>
      case Some(a) =>
        assert Rows(SaveAll(log, alerts)) == Rows(SaveAll(log, init)) + [a];
    }
  }

  class SafetyAlertSystem {
    /** `current_session_alerts`. */
    var sessionAlerts: seq<Alert>
    /** The rows of the alert log file, `None` while it does not exist. */
    var alertLog: Option<seq<Alert>>

    /** A new system starts with an empty session over whatever log already exists. */
    constructor (existingLog: Option<seq<Alert>>)
      ensures sessionAlerts == [] && alertLog == existingLog
    {
      sessionAlerts := [];
      alertLog := existingLog;
    }

    /**
     * `generate_alert`: decides the alert for one sample and appends it to the session.
     * The log is left alone: nothing is persisted here.
     */
    method GenerateAlert(activity: string, riskScore: int, motionIntensity: real,
                         isFall: bool, isAnomaly: bool, isHighAlert: bool,
                         sampleIndex: Option<int>, timestamp: string)
      returns (alert: Option<Alert>)
      modifies this`sessionAlerts
      ensures alert == NewAlert(timestamp, activity, riskScore, motionIntensity, isFall, isAnomaly, isHighAlert, sampleIndex)
      ensures alert.Some? ==> sessionAlerts == old(sessionAlerts) + [alert.value]
      ensures alert.None? ==> sessionAlerts == old(sessionAlerts)
      ensures alertLog == old(alertLog)
    {
      alert := NewAlert(timestamp, activity, riskScore, motionIntensity, isFall, isAnomaly, isHighAlert, sampleIndex);
      if alert.Some? {
        sessionAlerts := sessionAlerts + [alert.value];
      }
    }

    /** `save_alert_to_log`: read-merge-write of the log file, one row per saved alert. */
    method SaveAlertToLog(alert: Option<Alert>)
      modifies this`alertLog
      ensures alertLog == LogAfterSave(old(alertLog), alert)
      ensures sessionAlerts == old(sessionAlerts)
    {
      if alert.None? {
        return;
      }
      match alertLog
      case Some(existing) =>
        alertLog := Some(existing + [alert.value]);
      case None =>
        alertLog := Some([alert.value]);
    }

    /** `get_session_summary`. */
    function GetSessionSummary(): (r: Summary)
      reads this
      ensures r == Summarize(sessionAlerts)
    {
      Summarize(sessionAlerts)
    }

    /** `get_recent_alerts(n)`. */
    function GetRecentAlerts(n: int): (r: seq<Alert>)
      reads this
      ensures r == RecentAlerts(alertLog, n)
    {
      RecentAlerts(alertLog, n)
    }

    /** `get_alert_statistics`. */
    function GetAlertStatistics(): (r: Option<Statistics>)
      reads this
      ensures r == LogStatistics(alertLog)
    {
      LogStatistics(alertLog)
    }

    /** `clear_session_alerts`: the session is emptied and nothing is written to the log. */
    method ClearSessionAlerts()
      modifies this`sessionAlerts
      ensures sessionAlerts == []
      ensures GetSessionSummary() == EmptySummary
      ensures alertLog == old(alertLog)
    {
      sessionAlerts := [];
    }
  }

  /** A run: the session collects exactly the alerts raised, and saving is separate from generating. */
  method SessionScenario(existingLog: Option<seq<Alert>>)
  {
    var system := new SafetyAlertSystem(existingLog);
    var a1 := system.GenerateAlert("WALKING", 10, 0.4, true, false, false, Some(3), "2024-01-01T10:00:00");
    var a2 := system.GenerateAlert("SITTING", 20, 0.1, false, false, false, Some(4), "2024-01-01T10:00:01");
    assert a1.Some? && a1.value.severity == Emergency;
    assert a2.None? by {
      assert Upper("SITTING") == "SITTING";
      assert "SITTING" !in HighRiskActivityNames;
    }
    assert system.sessionAlerts == [a1.value];
    assert system.alertLog == existingLog;
    assert system.GetSessionSummary().criticalCount == 1 by {
      assert Severities(system.sessionAlerts) == [Emergency];
    }
    system.SaveAlertToLog(a1);
    system.SaveAlertToLog(a2);
    assert Rows(system.alertLog) == Rows(existingLog) + [a1.value];
    system.ClearSessionAlerts();
    assert system.GetSessionSummary() == EmptySummary;
    assert Rows(system.alertLog) == Rows(existingLog) + [a1.value];
  }
}
