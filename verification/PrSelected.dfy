/** When the gate of pr_ci.py makes sure that something ran under a selector. */
module PrSelected {
  import opened Results
  import opened Sorting
  import opened Selectors
  import opened PrPlan
  import opened PrImpact
  import opened PrGate

  /** Whatever the lanes do, when the gate accepts, some node that the selector picks was collected in
      the lane and counted. */
  ghost predicate AlwaysRuns(plan: Plan, needs: Needs, lane: Lane, s: string) {
    forall runs, reports :: Reported(plan, runs, reports) && Aggregates(plan, needs, reports) ==>
      lane in runs && exists node :: Counted(plan, needs, runs, lane, node) && Picks(s, node)
  }

  /** The lanes have selectors, each once, and no more than a lane may collect. */
  predicate Runnable(plan: Plan) {
    forall lane :: lane in plan.lanes ==>
      var selectors := plan.lanes[lane].selectors;
      0 < |selectors| <= MAX_NODES && |Elements(selectors)| == |selectors|
  }

  // ----- the run that collects the selectors themselves

  function RunOf(selectors: seq<string>): LaneRun {
    LaneRun(0, selectors, selectors, [], Some(map node | node in selectors :: TestPassed))
  }

  function ReportFor(lane: Lane, selectors: seq<string>): Report {
    Report(lane, |selectors|, |selectors|, 0, [], Elements(selectors))
  }

  function RunsOf(plan: Plan): map<Lane, LaneRun> {
    map lane | lane in plan.lanes :: RunOf(plan.lanes[lane].selectors)
  }

  function ReportsOf(plan: Plan): map<Lane, Report> {
    map lane | lane in plan.lanes :: ReportFor(lane, plan.lanes[lane].selectors)
  }

  lemma SelectorsAccounted(selectors: seq<string>)
    ensures Accounted(Elements(selectors), selectors)
  {
    hide Matches;
    forall s | s in selectors ensures Matches(s, s) && s in Elements(selectors) {
      MatchesOrder(s, s, s);
    }
    assert forall s :: s in Elements(selectors) ==> s in selectors;
  }

  lemma OwnLaneAccepted(plan: Plan, lane: Lane)
    requires Runnable(plan) && lane in plan.lanes
    ensures LaneAccepted(plan, lane, RunOf(plan.lanes[lane].selectors))
  {
    hide Accounted, ExpectedSkip;
    var selectors := plan.lanes[lane].selectors;
    SelectorsAccounted(selectors);
    assert (map node | node in selectors :: TestPassed).Keys == Elements(selectors);
  }

  lemma OwnReport(plan: Plan, lane: Lane)
    requires Runnable(plan) && lane in plan.lanes
    ensures ReportOf(ReportFor(lane, plan.lanes[lane].selectors), plan, lane, RunOf(plan.lanes[lane].selectors))
  {
    hide ExpectedSkip;
    var selectors := plan.lanes[lane].selectors;
    var outcomes := RunOf(selectors).outcomes.value;
    assert (set node | node in outcomes && outcomes[node].TestPassed?) == Elements(selectors);
  }

  lemma OwnReported(plan: Plan)
    requires Runnable(plan)
    ensures Reported(plan, RunsOf(plan), ReportsOf(plan))
  {
    hide Runnable, LaneAccepted, ReportOf;
    forall lane | lane in plan.lanes
      ensures LaneAccepted(plan, lane, RunsOf(plan)[lane])
      ensures ReportOf(ReportsOf(plan)[lane], plan, lane, RunsOf(plan)[lane])
    {
      OwnLaneAccepted(plan, lane);
      OwnReport(plan, lane);
    }
  }

  lemma OwnAggregates(plan: Plan, needs: Needs)
    requires Runnable(plan) && ProducersOk(plan, needs)
    ensures Aggregates(plan, needs, ReportsOf(plan))
  {
    hide ProducersOk, SkipMadeGood;
    forall lane | lane in plan.lanes ensures LaneAggregates(plan, needs, ReportsOf(plan), lane) {
    }
  }

  // ----- the condition

  lemma NarrowerRuns(plan: Plan, needs: Needs, lane: Lane, s: string, t: string)
    requires lane in plan.lanes && t in plan.lanes[lane].selectors && Picks(s, t)
    ensures AlwaysRuns(plan, needs, lane, s)
  {
    hide Reported, Aggregates, Counted, Picks, Matches;
    forall runs, reports | Reported(plan, runs, reports) && Aggregates(plan, needs, reports)
      ensures lane in runs && exists node :: Counted(plan, needs, runs, lane, node) && Picks(s, node)
    {
      GateMeans(plan, needs, runs, reports, lane);
      var node :| Counted(plan, needs, runs, lane, node) && Picks(t, node);
      MatchesPicks(s, t);
      MatchesPicks(t, node);
      MatchesOrder(s, t, node);
      MatchesPicks(s, node);
    }
  }

  /**
   The gate makes sure that something ran under a selector exactly when the lane of the plan it
   checks still has that selector, or one under it.
   */
  lemma SelectorRunsIff(plan: Plan, needs: Needs, lane: Lane, s: string)
    requires Runnable(plan) && ProducersOk(plan, needs) && lane in plan.lanes
    ensures AlwaysRuns(plan, needs, lane, s) <==> exists t :: t in plan.lanes[lane].selectors && Picks(s, t)
  {
    hide Reported, Aggregates, Picks, Runnable, ProducersOk;
    if t :| t in plan.lanes[lane].selectors && Picks(s, t) {
      NarrowerRuns(plan, needs, lane, s, t);
    }
    if AlwaysRuns(plan, needs, lane, s) {
      OwnReported(plan);
      OwnAggregates(plan, needs);
      var node :| Counted(plan, needs, RunsOf(plan), lane, node) && Picks(s, node);
      assert node in plan.lanes[lane].selectors;
    }
  }
}
