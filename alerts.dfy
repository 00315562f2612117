/** The alert and anomaly detector (app/perception_agent/tools/agent_5_tools.py):
    four detectors that are still stubs, and the severity ordering of alerts. */
module AlertDetector {
  import opened Json
  import opened Sorting

  /** `check_keyword_frequency`: the stub reports no spike. */
  function CheckKeywordFrequency(articles: seq<Record>, historicalData: Record): (r: seq<Record>)
    ensures r == []
  {
    []
  }

  /** `analyze_sentiment_shift`: the stub reports no shift. */
  function AnalyzeSentimentShift(articles: seq<Record>, historicalData: Record): (r: seq<Record>)
    ensures r == []
  {
    []
  }

  /** `evaluate_thresholds`: the stub triggers no alert. */
  function EvaluateThresholds(articles: seq<Record>, userAlerts: seq<Record>): (r: seq<Record>)
    ensures r == []
  {
    []
  }

  /** `detect_anomalies`: the stub finds no anomaly. */
  function DetectAnomalies(articles: seq<Record>, historicalData: Record): (r: seq<Record>)
    ensures r == []
  {
    []
  }

  /** The severity looked up in `priority_order`; a missing severity counts
      as "low". */
  function Severity(alert: Record): Value {
    Get(alert, "severity", Str("low"))
  }

  /** `priority_order.get(severity, 0)`: high 3, medium 2, low 1, and 0 for
      any other value, None included. */
  function Priority(alert: Record): (p: int)
    ensures 0 <= p <= 3
    ensures p == 3 <==> Severity(alert) == Str("high")
    ensures p == 2 <==> Severity(alert) == Str("medium")
    ensures p == 1 <==> Severity(alert) == Str("low")
  {
    match Severity(alert)
    case Str(s) => if s == "high" then 3 else if s == "medium" then 2 else if s == "low" then 1 else 0
    case _ => 0
  }

  /** The severities must be hashable to be looked up in the table. */
  predicate Lookupable(alerts: seq<Record>) {
    forall a :: a in alerts ==> Hashable(Severity(a))
  }

  /** `prioritize_alerts`: the same alerts, highest priority first. */
  function PrioritizeAlerts(alerts: seq<Record>): (r: seq<Record>)
    requires Lookupable(alerts)
    ensures multiset(r) == multiset(alerts)
    ensures SortedDesc(r, Priority)
  {
    SortDesc(alerts, Priority)
  }

  /** Alerts of equal priority keep their input order. */
  lemma PrioritizeStable(alerts: seq<Record>, k: int)
    requires Lookupable(alerts)
    ensures WithKey(PrioritizeAlerts(alerts), Priority, k) == WithKey(alerts, Priority, k)
  {
    SortDescStable(alerts, Priority, k);
  }

  /** An alert without a severity ranks with the "low" ones, ahead of one whose
      severity is present but not in the table. */
  lemma MissingSeverityIsLow(alerts: seq<Record>, i: nat, j: nat)
    requires Lookupable(alerts)
    requires i < |PrioritizeAlerts(alerts)| && j < |PrioritizeAlerts(alerts)|
    requires "severity" !in PrioritizeAlerts(alerts)[i]
    requires Severity(PrioritizeAlerts(alerts)[j]) !in {Str("high"), Str("medium"), Str("low")}
    ensures i < j
  {
    var r := PrioritizeAlerts(alerts);
    assert Priority(r[i]) == 1 && Priority(r[j]) == 0;
  }
}
