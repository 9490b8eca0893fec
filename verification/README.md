# Safety alerts and live risk scoring, modelled in Dafny

This project models the decision logic of an activity-monitoring application that
turns body-motion samples into risk scores and safety alerts.

- **Alert system** (`alert_system.py`, class `SafetyAlertSystem`). For one sample,
  `generate_alert` looks at the activity label, the risk score and three flags
  (fall, high-risk motion, anomaly). It raises at most one alert, taking the first
  match in this order: EMERGENCY/FALL_DETECTED, CRITICAL/HIGH_RISK_MOTION,
  WARNING/ANOMALY_DETECTED, WARNING/HIGH_RISK_ACTIVITY (activity STAIRS, RUNNING or
  JOGGING in any case), INFO/ELEVATED_RISK (risk score 60 or more). Each alert
  raised is appended to the session list. The class also keeps a persisted log that
  is only ever appended to, and it answers three queries: a session summary, the
  most recent log rows and the log statistics.
- **Live scoring** (the live-simulation part of `app.py`). The batch mean and
  standard deviation of the motion magnitudes give two cut-offs, `mean + 2*std` and
  `mean + 3.5*std`. These flag possible falls and high-risk spikes. A loop marks a
  fall event where a possible fall is followed by a magnitude below the mean. The
  risk score is a motion term capped at 25, plus 25 per raised flag, capped at 100
  and truncated to an integer. A status line and a risk band (cut-offs 30, 60, 85)
  are then chosen for display.

Files and modules:

- `wrappers.dfy` (`Wrappers`): `Option`.
- `text_order.dfy` (`TextOrder`): lexicographic string order. Timestamps are
  ISO-8601 strings, and the log is sorted by comparing them as strings.
- `alerts.dfy` (`Alerts`): severities, alert types, the alert record and the
  decision cascade.
- `alert_counts.dfy` (`AlertCounts`): value counts, the session summary, the log
  statistics, and the recent-alerts query (tail, then sort newest first).
- `alert_system.dfy` (`AlertSystem`): the class `SafetyAlertSystem`. Its field
  `sessionAlerts` is a `seq<Alert>`. Its field `alertLog` is an
  `Option<seq<Alert>>`, where `None` means the log file does not exist yet.
- `live_scoring.dfy` (`LiveScoring`): thresholds and flag columns, the Fall_Event
  loop over arrays, the risk score, the status and the risk band.

Notes on the code:

- `generate_alert` never writes to the log, so CRITICAL and EMERGENCY alerts are not
  persisted automatically. `GenerateAlert` leaves `alertLog` unchanged.
- A missing sample index is stored as `None`, not as -1. The `-1` default of
  `alert.get` only applies to a record without that key, and `generate_alert` always
  sets the key.
- There is no guard for a zero batch mean. The risk score requires `mean > 0`.
- With a zero standard deviation the two thresholds are equal. The alert threshold
  is at least the anomaly threshold, not strictly above it.
- `app.py` never constructs `SafetyAlertSystem` and never calls `generate_alert`. The
  status line it shows and the alert cascade are two separate pieces of code.
  `LiveScoring.StatusAgreesWithAlert` states that the two agree when given the same
  flags; it does not describe a call from one to the other.

## Model

| member | source | states |
|---|---|---|
| `Alerts.NewAlert` | alert_system.py:41-121 | A fall always gives EMERGENCY/FALL_DETECTED, whatever the other inputs. Otherwise a high-risk spike gives CRITICAL/HIGH_RISK_MOTION. Otherwise WARNING is raised exactly when there is an anomaly or the activity is high-risk, typed ANOMALY_DETECTED when there is an anomaly and HIGH_RISK_ACTIVITY otherwise. Otherwise INFO/ELEVATED_RISK is raised exactly when the risk score is at least 60, and there is no alert below that. Every alert copies the timestamp, activity, risk score, motion intensity and sample index unchanged. |
| `Alerts.Classify` | alert_system.py:52-115 | The kind chosen is always one whose condition holds. No alert is chosen exactly when there is no fall, no high-risk spike, no anomaly, no high-risk activity and the risk score is below 60. |
| `Alerts.IsHighRiskActivity` | alert_system.py:81 | An activity is high-risk exactly when it equals STAIRS, RUNNING or JOGGING, ignoring the case of ASCII letters. |
| `Alerts.UpperEqualIffEqualIgnoringCase` | alert_system.py:81 | Two labels upper-case to the same string exactly when they are equal ignoring case. |
| `Alerts.ClassifyPicksHighestPriority` | alert_system.py:52-115 | The cascade raises nothing exactly when no condition holds. Otherwise it raises a kind whose condition holds and that outranks every other kind whose condition holds. |
| `Alerts.ClassifyIsMostSevere` | alert_system.py:52-115 | Whenever any condition holds, an alert is raised, and its severity rank is at least that of every condition that holds. |
| `Alerts.UpperIdempotent` | alert_system.py:81 | Upper-casing is idempotent, so the activity match gives the same answer for a label and its upper-case form. |
| `Alerts.ConcreteCases` | alert_system.py:52-121 | A fall while walking at risk 10 gives EMERGENCY. STAIRS and stairs at risk 40 give WARNING/HIGH_RISK_ACTIVITY. SITTING at risk 65 gives INFO/ELEVATED_RISK. SITTING at risk 20 gives no alert. |
| `AlertSystem.SafetyAlertSystem.constructor` | alert_system.py:14-16 | A new system has an empty session and sees the log as it already exists. |
| `AlertSystem.SafetyAlertSystem.GenerateAlert` | alert_system.py:41-121 | Returns the cascade's alert. The session grows by exactly that alert when there is one and is unchanged otherwise. Earlier session entries are kept, and the log is not touched. |
| `AlertSystem.SafetyAlertSystem.SaveAlertToLog` | alert_system.py:123-147 | Saving `None` leaves the log unchanged. Otherwise the new log is the old rows (none if the file did not exist) followed by one new row. The session is not touched. |
| `AlertSystem.SafetyAlertSystem.ClearSessionAlerts` | alert_system.py:176-178 | The session becomes empty and its summary becomes the zero summary. The log is unchanged. |
| `AlertSystem.SafetyAlertSystem.GetSessionSummary` | alert_system.py:149-166 | Delegates: the result is `AlertCounts.Summarize` of the session. |
| `AlertSystem.SafetyAlertSystem.GetRecentAlerts` | alert_system.py:168-174 | Delegates: the result is `AlertCounts.RecentAlerts` of the log. |
| `AlertSystem.SafetyAlertSystem.GetAlertStatistics` | alert_system.py:180-195 | Delegates: the result is `AlertCounts.LogStatistics` of the log. |
| `AlertSystem.LogAfterSave` | alert_system.py:123-147 | One save keeps every earlier row in place and adds exactly the saved alert at the end. The log always exists after a save. |
| `AlertSystem.SaveAllAppends` | alert_system.py:123-147 | After any sequence of saves, the log holds its earlier rows, unmodified, followed by exactly the saved alerts in the order they were saved. It exists iff it existed before or something was saved. |
| `AlertCounts.Summarize` | alert_system.py:149-166 | `total_alerts` is the session length. `by_severity` and `by_type` are the value counts of the severity and type columns. `critical_count` is the number of CRITICAL alerts plus the number of EMERGENCY alerts. The severity keys and type keys are exactly the values that occur. The by-severity counts sum to the total, and so do the by-type counts. `critical_count` also equals the CRITICAL entry plus the EMERGENCY entry of `by_severity`. The summary is `{0, {}, {}, 0}` exactly for an empty session. |
| `AlertCounts.ValueCounts` | alert_system.py:163-164 | The keys are exactly the values that occur, and each maps to its positive number of occurrences. |
| `AlertCounts.Count` | alert_system.py:163-165 | A count is at most the length, and it is zero exactly when the value does not occur. |
| `AlertCounts.SeverityBreakdownSums` | alert_system.py:163 | The severity breakdown of any alert list sums to its length. |
| `AlertCounts.TypeBreakdownSums` | alert_system.py:164 | The type breakdown of any alert list sums to its length. |
| `AlertCounts.CountInPair` | alert_system.py:165 | Counting the rows whose severity is in {CRITICAL, EMERGENCY} gives the CRITICAL count plus the EMERGENCY count. |
| `AlertCounts.LogStatistics` | alert_system.py:180-195 | There are no statistics exactly when there is no log. Otherwise the total is the number of rows. The severity, type and activity breakdowns are the value counts of those columns. `emergency_count` is the number of EMERGENCY rows and `critical_count` the number of CRITICAL rows. Also the severity and type breakdowns each sum to it. The emergency and critical counts are the EMERGENCY and CRITICAL entries of the severity breakdown. The activity keys are exactly the activities in the log, each with a count between 1 and the total. |
| `AlertCounts.Tail` | alert_system.py:174 | Returns a suffix of the rows. For `n >= 0` it has min(n, rows) elements. For a negative `n` it drops the first -n rows. |
| `AlertCounts.SortByTimestampDesc` | alert_system.py:174 | The result is a permutation of its input, with timestamps in non-increasing string order. |
| `AlertCounts.RecentAlerts` | alert_system.py:168-174 | With no log the result is empty. Otherwise it is a permutation of the last min(n, rows) rows, newest timestamp first. |
| `LiveScoring.PossibleFallColumn` | app.py:218-221 | Possible_Fall holds at a sample exactly when its magnitude is strictly above mean + 2 std. |
| `LiveScoring.HighRiskAlertColumn` | app.py:219-222 | High_Risk_Alert holds at a sample exactly when its magnitude is strictly above mean + 3.5 std. |
| `LiveScoring.FallEventColumn` | app.py:225-228 | Fall_Event is false at the first and last index, and every fall event is a possible fall. |
| `LiveScoring.HighRiskImpliesPossibleFall` | app.py:218-222 | With std >= 0 the alert threshold is at least the anomaly threshold, so every High_Risk_Alert sample is a Possible_Fall sample. |
| `LiveScoring.ZeroSpreadFlagsStrictlyAboveMean` | app.py:218-222 | With std = 0 both thresholds equal the mean. Both flags then hold exactly for magnitudes strictly above the mean. |
| `LiveScoring.FallEventProperties` | app.py:225-228 | At every inner index, Fall_Event holds iff Possible_Fall holds and the next magnitude is below the mean. |
| `LiveScoring.MarkFallEvents` | app.py:225-228 | After the loop, the Fall_Event array is exactly the heuristic's column for the magnitudes and Possible_Fall flags. No other array is written. |
| `LiveScoring.FallHeuristicExample` | app.py:218-228 | For magnitudes [1, 1, 2.5, 0.9, 1] with mean 1 and std 0.5, only index 2 is a possible fall, and it is a fall event. |
| `LiveScoring.RiskScore` | app.py:264-273 | With motion >= 0 and mean > 0, the score is an integer in [0, 100]. |
| `LiveScoring.RiskScoreDecomposes` | app.py:264-273 | The truncated motion term lies in [0, 25]. The uncapped sum never exceeds 100, so the outer cap never applies. The score is exactly 25 per raised flag plus the truncated motion term. |
| `LiveScoring.RiskScoreMonotoneInFlags` | app.py:267-273 | Raising any one of the anomaly, alert or fall flags, with the other inputs fixed, never lowers the score. |
| `LiveScoring.StillSampleScoresZero` | app.py:265-273 | A zero-magnitude sample with no flag scores 0. |
| `LiveScoring.NoFlagsIsLowRisk` | app.py:264-310 | With no flag raised the score is at most 25, which is in the Low band. |
| `LiveScoring.ComputeRiskScore` | app.py:264-273 | The step-by-step accumulation equals the risk score function and lies in [0, 100]. |
| `LiveScoring.StatusOf` | app.py:293-300 | Exactly one status is chosen: likely fall iff fall; high risk iff alert and no fall; caution iff anomaly and neither of those; normal iff no flag. |
| `LiveScoring.StatusAgreesWithAlert` | app.py:293-300 | For the same flags, the status shown matches the alert system's cascade: likely fall iff FALL_DETECTED, high risk iff HIGH_RISK_MOTION, caution iff ANOMALY_DETECTED. |
| `LiveScoring.BandOf` | app.py:303-310 | The band is Low iff the score is below 30, Medium iff it is in [30, 60), High iff in [60, 85) and Critical iff at least 85. |
| `LiveScoring.BandMonotone` | app.py:303-310 | A higher score never shows a lower band. |
| `LiveScoring.SampleAssessmentConsistent` | app.py:218-310 | For every sample of a batch scored from its own columns, the score is in [0, 100]. A normal status always shows the Low band. A likely-fall or high-risk status scores at least 50, never Low. A sample that is both a fall and a high-risk spike scores at least 75 and shows High or Critical. |

## Left out

- Display: all Streamlit and matplotlib code, the historical dashboard and dataset explorer modes, the live loop's metrics, progress bar and `time.sleep` (app.py:1-173, 231-316, 320-417). The per-sample computations inside the live loop are modelled; the loop itself only displays them.
- Magnitude and batch statistics: `np.sqrt` of the three acceleration means and the pandas `mean()`/`std()` (app.py:208-215) are not computed. Magnitudes, mean and standard deviation are inputs. The magnitudes are taken as non-negative, the standard deviation as non-negative and the mean as positive. A one-sample batch, whose pandas `std()` is NaN and makes every flag false, is not modelled.
- LiveScoring.RiskScore: uses exact real arithmetic where the code uses float64. This covers `motion / mean_mag * 25`, the sum before `int()`, and the threshold comparisons `mean + 2*std` and `mean + 3.5*std`. Rounding can make the truncated score differ by one near an integer. For example, motion 0.9999999999999998 with mean 1.0 and all three flags set gives a float motion term of 24.999999999999993, whose float sum with 75 rounds to 100, while the exact model gives 99. In the app any flag implies a magnitude above the mean, so with flags set the float term is exactly 25 and that example cannot arise there; the ±1 difference remains possible when no flag is set. The same rounding can move a magnitude very close to a threshold to the other side.
- LiveScoring.RiskScore: requires a positive mean. The code divides by the mean without a guard, so a zero mean gives NaN, and `int()` then raises an error.
- The activity classifier (`model.predict`, app.py:205) and train_model.py are not part of this model. Activity labels are inputs.
- inspect_data.py and create_placeholder.py only inspect data and draw an image.
- `datetime.now()` (alert_system.py:50) becomes a timestamp parameter of `GenerateAlert`.
- File mechanics: CSV reading and writing, `Path.exists`, and read or write failures are left out. The log file is its rows, which are assumed to read back exactly as they were written. In the real file, a missing sample index reads back as NaN, and numeric column types may change.
- `average_risk_score` (alert_system.py:192) is a floating-point mean and is left out. The other statistics fields are modelled.
- `format_alert_message` (alert_system.py:198-218) only formats display text. Alert messages and actions are kept as constants in `Alerts.Describe`, with no properties.
- The values of `SEVERITY_LEVELS`, `RISK_THRESHOLDS` and `HIGH_RISK_ACTIVITIES` (alert_system.py:19-39) are never read by the logic. Only the keys of `HIGH_RISK_ACTIVITIES` are used, by `Alerts.IsHighRiskActivity`. `Alerts.Rank` gives the severity order used in `Alerts.ClassifyIsMostSevere`.
- Alerts.IsHighRiskActivity: upper-cases ASCII letters only. Python's `str.upper()` also maps some other characters to ASCII letters (for example the long s to S), and those are not modelled.
- AlertCounts.RecentAlerts: returns rows with equal timestamps in one fixed order. pandas' default unstable sort promises no particular order for them, so the contract states only a permutation sorted newest first.
- The log file name (`alert_log_file`) is not modelled. Each system has exactly one log.
