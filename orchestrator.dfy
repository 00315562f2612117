/** The perception orchestrator's run records (app/perception_agent/tools/agent_0_tools.py):
    a run starts as "running" under an id made from the clock, finishes as
    "success" or "failed", and follows a fixed daily plan. The clock readings
    are passed in. */
module Orchestrator {
  import opened Json
  import opened Text
  import opened Counting
  import Wrappers

  const RunPrefix := "run_"

  /** The descriptor `start_ingestion_run` returns. */
  datatype RunStart = RunStart(runId: string, startedAt: string, trigger: string, status: string)

  /** The final payload `finalize_ingestion_run` returns. */
  datatype RunEnd = RunEnd(runId: string, finishedAt: string, status: string, stats: Value)

  /** `f"run_{n}"` */
  function RunId(epochSeconds: int): string {
    RunPrefix + IntToDecimal(epochSeconds)
  }

  /** `start_ingestion_run`: `epochSeconds` is `int()` of the clock's
      timestamp, `startedAt` the clock's ISO 8601 reading (the source reads
      the clock twice). */
  function StartIngestionRun(trigger: string, epochSeconds: int, startedAt: string): (r: RunStart)
    ensures r.status == "running"
    ensures r.trigger == trigger && r.startedAt == startedAt
    ensures StartsWith(r.runId, RunPrefix) && ParseInt(r.runId[|RunPrefix|..]) == epochSeconds
  {
    var runId := RunId(epochSeconds);
    assert runId[|RunPrefix|..] == IntToDecimal(epochSeconds);
    ParseIntToDecimal(epochSeconds);
    RunStart(runId, startedAt, trigger, "running")
  }

  /** `finalize_ingestion_run`: `stats or {}`, so falsy stats (None or an
      empty dict) become an empty dict and any other value is kept. */
  function FinalizeIngestionRun(runId: string, success: bool, stats: Value, finishedAt: string): (r: RunEnd)
    ensures r.runId == runId && r.finishedAt == finishedAt
    ensures r.status == "success" <==> success
    ensures r.status == "failed" <==> !success
    ensures r.status != "running"
    ensures !Truthy(stats) ==> r.stats == Obj(map[])
    ensures Truthy(stats) ==> r.stats == stats
  {
    RunEnd(runId, finishedAt, if success then "success" else "failed", if Truthy(stats) then stats else Obj(map[]))
  }

  /** A started run finalizes under the id it started with, leaving the
      "running" state whatever the outcome. */
  lemma RunLifecycle(trigger: string, epochSeconds: int, startedAt: string, success: bool, stats: Value, finishedAt: string)
    ensures var s := StartIngestionRun(trigger, epochSeconds, startedAt);
      var e := FinalizeIngestionRun(s.runId, success, stats, finishedAt);
      s.status == "running" && e.runId == s.runId && e.status != s.status
  {
  }

  const PlanSteps: seq<string> := [
    "fetch_sources", "harvest_articles", "rank_articles", "write_brief",
    "check_alerts", "validate", "store"]

  datatype Plan = Plan(userId: Wrappers.Option<string>, steps: seq<string>)

  /** `build_daily_ingestion_plan`: the seven fixed steps, for the given user. */
  function BuildDailyIngestionPlan(userId: Wrappers.Option<string>): (r: Plan)
    ensures r.userId == userId
    ensures |r.steps| == 7 && Distinct(r.steps)
    ensures r.steps[0] == "fetch_sources" && r.steps[1] == "harvest_articles"
    ensures r.steps[5] == "validate" && r.steps[6] == "store"
  {
    Plan(userId, PlanSteps)
  }

  /** Validation comes immediately before storage, and nothing is stored
      before the articles are harvested and ranked. */
  lemma PlanOrder(userId: Wrappers.Option<string>)
    ensures var s := BuildDailyIngestionPlan(userId).steps;
      forall i :: 0 <= i < |s| && s[i] == "store" ==> i > 0 && s[i - 1] == "validate"
    ensures var s := BuildDailyIngestionPlan(userId).steps;
      forall i, j :: 0 <= i < |s| && 0 <= j < |s| && s[i] == "rank_articles" && s[j] == "store" ==> i < j
  {
    var s := BuildDailyIngestionPlan(userId).steps;
    assert s == PlanSteps;
  }
}
