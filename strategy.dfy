/** The local strategy read-out (app/jvp_agent/tools/strategic_orchestrator.py):
    risk and opportunity cues picked out of free text by two ordered keyword
    tables, scored by how many matched, and compared. */
module Strategy {
  import opened Text
  import opened Sorting
  import opened Counting

  /** A keyword table, in declaration order: keyword and message. */
  type SignalTable = seq<(string, string)>

  const RiskSignals: SignalTable := [
    ("delay", "Schedule delays likely—stabilise timelines before committing."),
    ("risk", "Explicit risk mentioned—capture mitigation steps in STATUS.md."),
    ("outage", "Operational outage referenced—coordinate with incident runbook."),
    ("compliance", "Compliance gap noted—loop in governance reviewers."),
    ("budget", "Budget pressure detected—prepare cost/benefit summary.")]

  const OpportunitySignals: SignalTable := [
    ("automation", "Automation candidate—consider turning workflow into a tool."),
    ("training", "Training opportunity—update user manuals if materialised."),
    ("efficiency", "Efficiency gain possible—quantify impact for rollout plan."),
    ("expansion", "Expansion theme—validate scope and add to roadmap."),
    ("success", "Positive outcome—document lessons in docs/ or STATUS.md.")]

  const NoRisk := "No explicit risk keywords detected—validate with stakeholders."
  const NoOpportunity := "No clear opportunity keywords—confirm if uplift exists."
  const Caution := "Bias towards caution—address risk items before scaling."
  const Momentum := "Momentum favourable—capture quick wins and assign owners."
  const Balanced := "Signals balanced—document assumptions and schedule follow-up decision."

  /** The two characters backslash and `b`. The pattern is written as a raw
      string with a doubled backslash, so the regular expression sees an
      escaped backslash followed by a plain `b`, not a word boundary. */
  const Marker := "\\b"

  /** `re.search(rf"\\b{re.escape(keyword)}\\b", lowered)`: the keyword,
      between two markers, occurs literally in the text. */
  predicate Matches(lowered: string, keyword: string) {
    Contains(lowered, Marker + keyword + Marker)
  }

  /** The messages of the matching entries, in table order. */
  function Signals(lowered: string, table: SignalTable): seq<string> {
    if table == [] then []
    else
      var e := table[|table| - 1];
      Signals(lowered, table[..|table| - 1]) + (if Matches(lowered, e.0) then [e.1] else [])
  }

  /** `_extract_signals` */
  method ExtractSignals(text: string, table: SignalTable) returns (results: seq<string>)
    ensures results == Signals(Lower(text), table)
  {
    var lowered := Lower(text);
    results := [];
    for i := 0 to |table|
      invariant results == Signals(lowered, table[..i])
    {
      assert table[..i + 1][..i] == table[..i];
      var (keyword, message) := table[i];
      if Matches(lowered, keyword) {
        results := results + [message];
      }
    }
    assert table[..|table|] == table;
  }

  /** The messages of a table, in table order. */
  function Messages(table: SignalTable): (ms: seq<string>)
    ensures |ms| == |table|
    ensures forall i :: 0 <= i < |table| ==> ms[i] == table[i].1
  {
    if table == [] then [] else Messages(table[..|table| - 1]) + [table[|table| - 1].1]
  }

  /** The signals are the messages of matching entries, in table order, and
      no more of them than the table has entries. */
  lemma {:induction false} SignalsOrder(lowered: string, table: SignalTable)
    ensures |Signals(lowered, table)| <= |table|
    ensures Subsequence(Signals(lowered, table), Messages(table))
  {
    if table != [] {
      var n := |table| - 1;
      var e := table[n];
      SignalsOrder(lowered, table[..n]);
      var s := Signals(lowered, table[..n]);
      var ms := Messages(table[..n]);
      assert Messages(table) == ms + [e.1];
      assert (ms + [e.1])[..n] == ms;
      if Matches(lowered, e.0) {
        assert Signals(lowered, table) == s + [e.1];
        assert (s + [e.1])[..|s|] == s;
        assert Subsequence(s + [e.1], ms + [e.1]);
      } else {
        assert Signals(lowered, table) == s;
        assert Subsequence(s, ms + [e.1]);
      }
    }
  }

  /** Each message is reported no more often than the table lists it. */
  lemma {:induction false} SignalsCount(lowered: string, table: SignalTable, m: string)
    ensures Occ(Signals(lowered, table), m) <= Occ(Messages(table), m)
  {
    if table != [] {
      var n := |table| - 1;
      var e := table[n];
      SignalsCount(lowered, table[..n], m);
      var s := Signals(lowered, table[..n]);
      var ms := Messages(table[..n]);
      assert multiset(ms + [e.1]) == multiset(ms) + multiset([e.1]);
      if Matches(lowered, e.0) {
        assert multiset(s + [e.1]) == multiset(s) + multiset([e.1]);
      }
    }
  }

  /** A message is reported if and only if an entry carrying it matches. */
  lemma {:induction false} SignalsMembers(lowered: string, table: SignalTable, m: string)
    ensures m in Signals(lowered, table) <==>
      exists i :: 0 <= i < |table| && table[i].1 == m && Matches(lowered, table[i].0)
  {
    if table != [] {
      var n := |table| - 1;
      var p := table[..n];
      SignalsMembers(lowered, p, m);
      assert forall i :: 0 <= i < n ==> p[i] == table[i];
      if exists i :: 0 <= i < |table| && table[i].1 == m && Matches(lowered, table[i].0) {
        var i :| 0 <= i < |table| && table[i].1 == m && Matches(lowered, table[i].0);
        if i < n {
          assert p[i].1 == m && Matches(lowered, p[i].0);
        }
      }
    }
  }

  lemma MessagesDistinct()
    ensures Distinct(Messages(RiskSignals)) && Distinct(Messages(OpportunitySignals))
  {
    var rs := Messages(RiskSignals);
    var os := Messages(OpportunitySignals);
    assert forall i, j :: 0 <= i < j < 5 ==> RiskSignals[i].1 != RiskSignals[j].1;
    assert forall i, j :: 0 <= i < j < 5 ==> OpportunitySignals[i].1 != OpportunitySignals[j].1;
  }

  /** No table message is listed twice, so no signal is reported twice. */
  lemma SignalsOnce(lowered: string, m: string)
    ensures Occ(Signals(lowered, RiskSignals), m) <= 1
    ensures Occ(Signals(lowered, OpportunitySignals), m) <= 1
  {
    SignalsCount(lowered, RiskSignals, m);
    SignalsCount(lowered, OpportunitySignals, m);
    MessagesDistinct();
    DistinctOnce(Messages(RiskSignals), m);
    DistinctOnce(Messages(OpportunitySignals), m);
  }

  lemma {:induction false} DistinctOnce(xs: seq<string>, m: string)
    requires Distinct(xs)
    ensures Occ(xs, m) <= 1
  {
    if xs != [] {
      var p := xs[..|xs| - 1];
      assert Distinct(p) by {
        assert forall i :: 0 <= i < |p| ==> p[i] == xs[i];
      }
      DistinctOnce(p, m);
      assert xs == p + [xs[|xs| - 1]];
      assert multiset(xs) == multiset(p) + multiset([xs[|xs| - 1]]);
      if xs[|xs| - 1] == m {
        assert m !in p;
      }
    }
  }

  /** The `score` and `signals` of an assessment. */
  datatype Assessment = Assessment(score: nat, signals: seq<string>)

  /** `assess_risks` */
  method AssessRisks(context: string) returns (view: Assessment)
    ensures view.score == |Signals(Lower(context), RiskSignals)| <= 5
    ensures view.score == 0 ==> view.signals == [NoRisk]
    ensures view.score > 0 ==> view.signals == Signals(Lower(context), RiskSignals)
  {
    var signals := ExtractSignals(context, RiskSignals);
    SignalsOrder(Lower(context), RiskSignals);
    var score := |signals|;
    if score == 0 {
      signals := signals + [NoRisk];
    }
    view := Assessment(score, signals);
  }

  /** `assess_opportunities` */
  method AssessOpportunities(context: string) returns (view: Assessment)
    ensures view.score == |Signals(Lower(context), OpportunitySignals)| <= 5
    ensures view.score == 0 ==> view.signals == [NoOpportunity]
    ensures view.score > 0 ==> view.signals == Signals(Lower(context), OpportunitySignals)
  {
    var signals := ExtractSignals(context, OpportunitySignals);
    SignalsOrder(Lower(context), OpportunitySignals);
    var score := |signals|;
    if score == 0 {
      signals := signals + [NoOpportunity];
    }
    view := Assessment(score, signals);
  }

  datatype StrategyReport = StrategyReport(
    status: string,
    input: string,
    risk: Assessment,
    opportunity: Assessment,
    recommendation: string)

  /** `orchestrate_strategy`: caution when risks outnumber opportunities,
      momentum in the opposite case, balance when they are level. */
  method OrchestrateStrategy(query: string) returns (r: StrategyReport)
    ensures r.status == "success" && r.input == query
    ensures r.risk.score == |Signals(Lower(query), RiskSignals)|
    ensures r.opportunity.score == |Signals(Lower(query), OpportunitySignals)|
    ensures r.risk.signals == if r.risk.score == 0 then [NoRisk] else Signals(Lower(query), RiskSignals)
    ensures r.opportunity.signals ==
      if r.opportunity.score == 0 then [NoOpportunity] else Signals(Lower(query), OpportunitySignals)
    ensures r.recommendation == Caution <==> r.risk.score > r.opportunity.score
    ensures r.recommendation == Momentum <==> r.opportunity.score > r.risk.score
    ensures r.recommendation == Balanced <==> r.risk.score == r.opportunity.score
  {
    var riskView := AssessRisks(query);
    var opportunityView := AssessOpportunities(query);
    var note;
    if riskView.score > opportunityView.score {
      note := Caution;
    } else if opportunityView.score > riskView.score {
      note := Momentum;
    } else {
      note := Balanced;
    }
    assert Caution != Momentum && Caution != Balanced && Momentum != Balanced;
    r := StrategyReport("success", query, riskView, opportunityView, note);
  }

  /** Lower-casing neither adds nor removes backslashes. */
  lemma LowerKeepsBackslashes(s: string)
    ensures '\\' in Lower(s) <==> '\\' in s
  {
    var l := Lower(s);
    if '\\' in l {
      var i :| 0 <= i < |l| && l[i] == '\\';
      assert LowerChar(s[i]) == '\\';
    }
    if '\\' in s {
      var i :| 0 <= i < |s| && s[i] == '\\';
      assert l[i] == '\\';
    }
  }

  lemma NoBackslashNoMatch(lowered: string, keyword: string)
    requires '\\' !in lowered
    ensures !Matches(lowered, keyword)
  {
    var pattern := Marker + keyword + Marker;
    forall i | 0 <= i <= |lowered| - |pattern| ensures !OccursAt(lowered, pattern, i) {
      assert lowered[i] != pattern[0];
    }
  }

  lemma {:induction false} NoMatchNoSignals(lowered: string, table: SignalTable)
    requires forall keyword :: !Matches(lowered, keyword)
    ensures Signals(lowered, table) == []
  {
    if table != [] {
      NoMatchNoSignals(lowered, table[..|table| - 1]);
    }
  }

  /** Every match needs a literal backslash, so text without one yields no
      signal from either table: both scores are 0 and the read-out is
      "balanced". */
  lemma NoBackslashNoSignals(query: string)
    requires '\\' !in query
    ensures Signals(Lower(query), RiskSignals) == []
    ensures Signals(Lower(query), OpportunitySignals) == []
  {
    var lowered := Lower(query);
    LowerKeepsBackslashes(query);
    forall keyword: string ensures !Matches(lowered, keyword) {
      NoBackslashNoMatch(lowered, keyword);
    }
    NoMatchNoSignals(lowered, RiskSignals);
    NoMatchNoSignals(lowered, OpportunitySignals);
  }
}
