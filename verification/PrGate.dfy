/**
 `verify_lane` and `aggregate` of pr_ci.py, and the end-to-end guarantee they give together with
 a closed plan: a skip is accepted only where its owner really ran.
 */
module PrGate {
  import opened Results
  import opened Sorting
  import opened Selectors
  import opened PrPlan
  import opened PrImpact

  /** A test's reported outcome; failures and errors never get this far. */
  datatype TestOutcome = TestPassed | TestSkipped(reason: string)

  /** What a lane's worker hands in; `outcomes` is absent if the JUnit file is not acceptable. */
  datatype LaneRun = LaneRun(returncode: int, collected: seq<string>, selected: seq<string>, deselected: seq<string>,
                             outcomes: Option<map<string, TestOutcome>>)

  datatype Report = Report(lane: Lane, selected: nat, passed: int, skipped: nat, skips: seq<Edge>,
      passedNodes: set<string>)

  datatype Refusal =
    | WorkerFailed | BadCollection | Deselected | Unexpected | CollectedNothing | BadJUnit | InventoryDiffers
    | UnexpectedSkip | MissingProducer | ProducerFailed | MissingReport | BadReport | OwnerDidNotPass | OwnerIncomplete

  const MAX_NODES := 50_000

  /** `expected[node, reason]`: the last edge of the lane for that skip. */
  function ExpectedSkip(edges: seq<Edge>, lane: Lane, node: string, reason: string): Option<Edge> {
    if edges == [] then None
    else
      var last := edges[|edges| - 1];
      if last.lane == lane && last.node == node && last.reason == reason then Some(last)
      else ExpectedSkip(edges[..|edges| - 1], lane, node, reason)
  }

  /** An edge excuses the skip, and no later edge does. */
  predicate LastExcuse(edges: seq<Edge>, i: nat, lane: Lane, node: string, reason: string)
    requires i < |edges|
  {
    && edges[i].lane == lane && edges[i].node == node && edges[i].reason == reason
    && forall j :: i < j < |edges| ==> !(edges[j].lane == lane && edges[j].node == node && edges[j].reason == reason)
  }

  lemma {:induction false} LastEdgeCounts(edges: seq<Edge>, i: nat, lane: Lane, node: string, reason: string)
    requires i < |edges| && LastExcuse(edges, i, lane, node, reason)
    ensures ExpectedSkip(edges, lane, node, reason) == Some(edges[i])
  {
    if i < |edges| - 1 {
      LastEdgeCounts(edges[..|edges| - 1], i, lane, node, reason);
    }
  }

  lemma {:induction false} ExpectedSkipFound(edges: seq<Edge>, lane: Lane, node: string, reason: string)
    ensures ExpectedSkip(edges, lane, node, reason).Some? <==>
              exists e :: e in edges && e.lane == lane && e.node == node && e.reason == reason
    ensures ExpectedSkip(edges, lane, node, reason).Some? ==>
              var e := ExpectedSkip(edges, lane, node, reason).value;
              e in edges && e.lane == lane && e.node == node && e.reason == reason
  {
    if edges != [] {
      ExpectedSkipFound(edges[..|edges| - 1], lane, node, reason);
      assert edges == edges[..|edges| - 1] + [edges[|edges| - 1]];
    }
  }

  /** The selectors and the collected nodes account for each other. */
  predicate Accounted(selectors: set<string>, nodes: seq<string>) {
    && (forall node | node in nodes :: Covered(selectors, node))
    && (forall s | s in selectors :: exists node | node in nodes :: Matches(s, node))
  }

  /** A run that collected, executed and reported exactly the selected tests. */
  predicate LaneCollected(plan: Plan, lane: Lane, run: LaneRun)
    requires lane in plan.lanes
  {
    && run.returncode == 0
    && 0 < |run.collected| <= MAX_NODES && |Elements(run.collected)| == |run.collected|
    && run.deselected == [] && run.selected == run.collected
    && Accounted(Elements(plan.lanes[lane].selectors), run.collected)
    && run.outcomes.Some? && run.outcomes.value.Keys == Elements(run.collected)
  }

  /** What `verify_lane` accepts of one lane. */
  ghost predicate LaneAccepted(plan: Plan, lane: Lane, run: LaneRun) {
    && lane in plan.lanes && LaneCollected(plan, lane, run)
    && forall node :: node in run.outcomes.value ==> SkipExpected(plan, lane, node, run.outcomes.value[node])
  }

  predicate SkipExpected(plan: Plan, lane: Lane, node: string, outcome: TestOutcome) {
    outcome.TestSkipped? ==> ExpectedSkip(plan.edges, lane, node, outcome.reason).Some?
  }

  /** The report that `verify_lane` writes for an accepted run. */
  ghost predicate ReportOf(report: Report, plan: Plan, lane: Lane, run: LaneRun)
    requires run.outcomes.Some?
  {
    var outcomes := run.outcomes.value;
    && report.lane == lane && report.selected == |run.collected|
    && report.skipped == |report.skips| && report.passed == report.selected - report.skipped
    && report.passedNodes == (set node | node in outcomes && outcomes[node].TestPassed?)
    && |report.passedNodes| == report.passed
    && SkipsListed(report.skips, plan, lane, outcomes)
  }

  /** The edge under which this node was skipped. */
  predicate SkippedUnder(plan: Plan, lane: Lane, outcomes: map<string, TestOutcome>, node: string, edge: Edge) {
    && node in outcomes && outcomes[node].TestSkipped?
    && ExpectedSkip(plan.edges, lane, node, outcomes[node].reason) == Some(edge)
  }

  ghost predicate SkipsListed(skips: seq<Edge>, plan: Plan, lane: Lane, outcomes: map<string, TestOutcome>) {
    forall edge :: edge in skips <==> exists node :: SkippedUnder(plan, lane, outcomes, node, edge)
  }

  method VerifyLane(plan: Plan, lane: Lane, run: LaneRun) returns (r: Result<Report, Refusal>)
    requires lane in plan.lanes
    ensures r.Ok? <==> LaneAccepted(plan, lane, run)
    ensures r.Ok? ==> ReportOf(r.value, plan, lane, run)
  {
    hide Covered, Matches, SkipExpected, SkipsListed;
    if run.returncode != 0 { return Err(WorkerFailed); }
    var selectors := Elements(plan.lanes[lane].selectors);
    var nodes := run.collected;
    if nodes == [] || |nodes| > MAX_NODES || |Elements(nodes)| != |nodes| { return Err(BadCollection); }
    if run.deselected != [] || run.selected != nodes { return Err(Deselected); }
    if !Accounted(selectors, nodes) {
      return Err(if forall node | node in nodes :: Covered(selectors, node) then CollectedNothing else Unexpected);
    }
    if run.outcomes.None? { return Err(BadJUnit); }
    var outcomes := run.outcomes.value;
    if outcomes.Keys != Elements(nodes) { return Err(InventoryDiffers); }
    var listed := CollectSkips(plan, lane, nodes, outcomes);
    if listed.Err? { return Err(listed.error); }
    var skips := listed.value;
    var passedNodes := set node | node in outcomes && outcomes[node].TestPassed?;
    r := Ok(Report(lane, |nodes|, |nodes| - |skips|, |skips|, skips, passedNodes));
    PassedCount(nodes, outcomes, skips);
  }

  /** The loop over the outcomes; a dict iterates in the order of the collected nodes here. */
  method CollectSkips(plan: Plan, lane: Lane, nodes: seq<string>, outcomes: map<string, TestOutcome>)
    returns (r: Result<seq<Edge>, Refusal>)
    requires outcomes.Keys == Elements(nodes)
    ensures r.Ok? <==> forall node :: node in outcomes ==> SkipExpected(plan, lane, node, outcomes[node])
    ensures r.Ok? ==> |r.value| == SkipCount(nodes, outcomes) && SkipsListed(r.value, plan, lane, outcomes)
  {
    hide ExpectedSkip;
    var skips: seq<Edge> := [];
    assert forall node :: node in outcomes <==> node in nodes;
    for i := 0 to |nodes|
      invariant forall k :: 0 <= k < i ==> SkipExpected(plan, lane, nodes[k], outcomes[nodes[k]])
      invariant |skips| == SkipCount(nodes[..i], outcomes)
      invariant forall edge :: edge in skips <==>
                  exists k :: 0 <= k < i && SkippedUnder(plan, lane, outcomes, nodes[k], edge)
    {
      var node := nodes[i];
      assert nodes[..i + 1] == nodes[..i] + [node] && nodes[..i + 1][..i] == nodes[..i];
      ghost var before := skips;
      if outcomes[node].TestSkipped? {
        var edge := ExpectedSkip(plan.edges, lane, node, outcomes[node].reason);
        if edge.None? { return Err(UnexpectedSkip); }
        skips := skips + [edge.value];
        assert SkippedUnder(plan, lane, outcomes, nodes[i], edge.value);
      }
      assert forall edge :: edge in skips <==> edge in before || SkippedUnder(plan, lane, outcomes, nodes[i], edge);
    }
    assert nodes[..|nodes|] == nodes;
    forall edge ensures edge in skips <==> exists node :: SkippedUnder(plan, lane, outcomes, node, edge) {
      if node :| SkippedUnder(plan, lane, outcomes, node, edge) {
        var k :| 0 <= k < |nodes| && nodes[k] == node;
        assert SkippedUnder(plan, lane, outcomes, nodes[k], edge);
      }
    }
    r := Ok(skips);
  }

  ghost function SkipCount(nodes: seq<string>, outcomes: map<string, TestOutcome>): nat
    requires forall node :: node in nodes ==> node in outcomes
  {
    if nodes == [] then 0
    else SkipCount(nodes[..|nodes| - 1], outcomes) + if outcomes[nodes[|nodes| - 1]].TestSkipped? then 1 else 0
  }

  lemma PassedCount(nodes: seq<string>, outcomes: map<string, TestOutcome>, skips: seq<Edge>)
    requires outcomes.Keys == Elements(nodes) && |Elements(nodes)| == |nodes|
    requires |skips| == SkipCount(nodes, outcomes)
    ensures |set node | node in outcomes && outcomes[node].TestPassed?| == |nodes| - |skips|
  {
    CountSkips(nodes, outcomes);
    var skipped := SkippedNodes(nodes, outcomes);
    var passed := set node | node in outcomes && outcomes[node].TestPassed?;
    assert passed + skipped == Elements(nodes);
    assert passed * skipped == {};
  }

  ghost function SkippedNodes(nodes: seq<string>, outcomes: map<string, TestOutcome>): set<string>
    requires forall node :: node in nodes ==> node in outcomes
  {
    set node | node in nodes && outcomes[node].TestSkipped?
  }

  lemma {:induction false} CountSkips(nodes: seq<string>, outcomes: map<string, TestOutcome>)
    requires (forall node :: node in nodes ==> node in outcomes) && |Elements(nodes)| == |nodes|
    ensures |SkippedNodes(nodes, outcomes)| == SkipCount(nodes, outcomes)
  {
    if nodes == [] {
      assert SkippedNodes(nodes, outcomes) == {};
    } else {
      var init, last := nodes[..|nodes| - 1], nodes[|nodes| - 1];
      LastIsNew(nodes);
      CountSkips(init, outcomes);
      var fewer := SkippedNodes(init, outcomes);
      if outcomes[last].TestSkipped? {
        assert SkippedNodes(nodes, outcomes) == fewer + {last};
      } else {
        assert SkippedNodes(nodes, outcomes) == fewer;
      }
    }
  }

  lemma LastIsNew(nodes: seq<string>)
    requires nodes != [] && |Elements(nodes)| == |nodes|
    ensures var init, last := nodes[..|nodes| - 1], nodes[|nodes| - 1];
            && last !in init && |Elements(init)| == |init| && nodes == init + [last]
            && forall node :: node in nodes <==> node in init || node == last
  {
    var init, last := nodes[..|nodes| - 1], nodes[|nodes| - 1];
    assert nodes == init + [last];
    assert Elements(nodes) == Elements(init) + {last};
    ElementsAtMost(init);
  }

  lemma {:induction false} ElementsAtMost(s: seq<string>)
    ensures |Elements(s)| <= |s|
  {
    if s != [] {
      ElementsAtMost(s[..|s| - 1]);
      assert s == s[..|s| - 1] + [s[|s| - 1]];
      assert Elements(s) == Elements(s[..|s| - 1]) + {s[|s| - 1]};
    }
  }

  // ----- the aggregate gate

  /** The result string of each job of the workflow. */
  type Needs = map<string, string>

  const SUCCESS := "success"
  const SKIPPED := "skipped"

  function Required(plan: Plan): set<string> {
    plan.jobs + {"plan"} + if plan.lanes == map[] then {} else {"test"}
  }

  predicate ProducersOk(plan: Plan, needs: Needs) {
    && Required(plan) <= needs.Keys
    && forall name | name in needs :: needs[name] == if name in Required(plan) then SUCCESS else SKIPPED
  }

  predicate ReportShape(report: Report, lane: Lane) {
    && report.lane == lane && report.selected > 0 && report.passed >= 0
    && report.selected == report.passed + report.skipped && |report.passedNodes| == report.passed
  }

  predicate SkipMadeGood(plan: Plan, needs: Needs, reports: map<Lane, Report>, edge: Edge) {
    match edge.producer
    case LaneProducer(owner) => owner in reports && edge.node in reports[owner].passedNodes
    case JobProducer(job) => job in plan.jobs && job in needs && needs[job] == SUCCESS
  }

  ghost predicate Aggregates(plan: Plan, needs: Needs, reports: map<Lane, Report>) {
    && ProducersOk(plan, needs)
    && reports.Keys == plan.lanes.Keys
    && forall lane :: lane in reports ==> LaneAggregates(plan, needs, reports, lane)
  }

  ghost predicate LaneAggregates(plan: Plan, needs: Needs, reports: map<Lane, Report>, lane: Lane)
    requires lane in reports
  {
    && ReportShape(reports[lane], lane)
    && forall edge :: edge in reports[lane].skips ==> SkipMadeGood(plan, needs, reports, edge)
  }

  method Aggregate(plan: Plan, needs: Needs, reports: map<Lane, Report>) returns (r: Result<set<string>, Refusal>)
    ensures r.Ok? <==> Aggregates(plan, needs, reports)
    ensures r.Ok? ==> r.value == Required(plan)
  {
    var required := Required(plan);
    if !(required <= needs.Keys) { return Err(MissingProducer); }
    if !ProducersOk(plan, needs) { return Err(ProducerFailed); }
    if reports.Keys != plan.lanes.Keys { return Err(MissingReport); }
    for i := 0 to |LANE_ORDER|
      invariant forall j :: 0 <= j < i && LANE_ORDER[j] in reports ==>
                  LaneAggregates(plan, needs, reports, LANE_ORDER[j])
    {
      var lane := LANE_ORDER[i];
      if lane in reports {
        var report := reports[lane];
        if !ReportShape(report, lane) { return Err(BadReport); }
        for k := 0 to |report.skips|
          invariant forall j :: 0 <= j < k ==> SkipMadeGood(plan, needs, reports, report.skips[j])
        {
          if !SkipMadeGood(plan, needs, reports, report.skips[k]) {
            assert report.skips[k] in report.skips;
            return Err(if report.skips[k].producer.LaneProducer? then OwnerDidNotPass else OwnerIncomplete);
          }
        }
      }
    }
    forall lane | lane in reports ensures LaneAggregates(plan, needs, reports, lane) {
      var j := LaneIndex(lane);
      assert LANE_ORDER[j] == lane;
    }
    r := Ok(required);
  }

  // ----- end to end

  /** The reports are those of these runs, one for each lane of the plan. */
  ghost predicate Reported(plan: Plan, runs: map<Lane, LaneRun>, reports: map<Lane, Report>) {
    && runs.Keys == plan.lanes.Keys == reports.Keys
    && forall lane :: lane in plan.lanes ==>
         LaneAccepted(plan, lane, runs[lane]) && ReportOf(reports[lane], plan, lane, runs[lane])
  }

  /** The node passed in the owner's own lane run, or the external producer succeeded. */
  ghost predicate ReallyRan(plan: Plan, needs: Needs, runs: map<Lane, LaneRun>, edge: Edge) {
    match edge.producer
    case LaneProducer(owner) =>
      owner in runs && runs[owner].outcomes.Some? && edge.node in runs[owner].outcomes.value
      && runs[owner].outcomes.value[edge.node].TestPassed?
    case JobProducer(job) => job in plan.jobs && job in needs && needs[job] == SUCCESS
  }

  /** An edge of the plan excuses this skip, and its producer really ran. */
  ghost predicate MadeGood(plan: Plan, needs: Needs, runs: map<Lane, LaneRun>, lane: Lane, node: string, reason: string,
      edge: Edge)
  {
    && edge in plan.edges && edge.lane == lane && edge.node == node && edge.reason == reason
    && ReallyRan(plan, needs, runs, edge)
  }

  /**
   Soundness of the gate.  If `aggregate` accepts, then in every selected lane every collected
   test either passed there or was skipped under an edge of the plan whose producer really ran:
   the same node passed in the owner's lane, or the owner's job succeeded.  Since the owner's
   outcome is itself a pass, no ring of skips can discharge one another.
   */
  lemma GateSound(plan: Plan, needs: Needs, runs: map<Lane, LaneRun>, reports: map<Lane, Report>, lane: Lane,
      node: string)
    requires Reported(plan, runs, reports) && Aggregates(plan, needs, reports)
    requires lane in plan.lanes && node in runs[lane].collected
    ensures runs[lane].outcomes.Some? && node in runs[lane].outcomes.value
    ensures var outcome := runs[lane].outcomes.value[node];
            outcome.TestSkipped? ==> exists edge :: MadeGood(plan, needs, runs, lane, node, outcome.reason, edge)
  {
    hide Matches, ExpectedSkip, ProducersOk, Accounted;
    assert LaneAccepted(plan, lane, runs[lane]) && ReportOf(reports[lane], plan, lane, runs[lane]);
    assert node in Elements(runs[lane].collected);
    var outcomes := runs[lane].outcomes.value;
    if outcomes[node].TestSkipped? {
      assert SkipExpected(plan, lane, node, outcomes[node]);
      ExpectedSkipFound(plan.edges, lane, node, outcomes[node].reason);
      var edge := ExpectedSkip(plan.edges, lane, node, outcomes[node].reason).value;
      assert SkippedUnder(plan, lane, outcomes, node, edge);
      assert LaneAggregates(plan, needs, reports, lane);
      assert SkipMadeGood(plan, needs, reports, edge);
      if edge.producer.LaneProducer? {
        OwnerPassed(plan, runs, reports, edge);
      }
      assert MadeGood(plan, needs, runs, lane, node, outcomes[node].reason, edge);
    }
  }

  /** The node was collected, and passed or was skipped and made good. */
  ghost predicate Counted(plan: Plan, needs: Needs, runs: map<Lane, LaneRun>, lane: Lane, node: string)
    requires lane in runs
  {
    && node in runs[lane].collected && runs[lane].outcomes.Some? && node in runs[lane].outcomes.value
    && match runs[lane].outcomes.value[node]
       case TestPassed => true
       case TestSkipped(reason) => exists edge :: MadeGood(plan, needs, runs, lane, node, reason, edge)
  }

  /** No node but what some selector picks. */
  ghost predicate EachPicked(selectors: seq<string>, nodes: seq<string>) {
    forall node :: node in nodes ==> exists s :: s in selectors && Picks(s, node)
  }

  ghost predicate EachPicks(selectors: seq<string>, nodes: seq<string>) {
    forall s :: s in selectors ==> exists node :: node in nodes && Picks(s, node)
  }

  /**
   What acceptance means for a selected lane.  Its worker succeeded and left nothing out; what it
   collected is what its selectors pick, and every selector picked something; and every collected
   node passed or was made good.
   */
  lemma GateMeans(plan: Plan, needs: Needs, runs: map<Lane, LaneRun>, reports: map<Lane, Report>, lane: Lane)
    requires Reported(plan, runs, reports) && Aggregates(plan, needs, reports) && lane in plan.lanes
    ensures lane in runs && runs[lane].returncode == 0 && runs[lane].deselected == []
    ensures runs[lane].selected == runs[lane].collected != [] && Distinct(runs[lane].collected)
    ensures EachPicked(plan.lanes[lane].selectors, runs[lane].collected)
    ensures forall node :: node in runs[lane].collected ==> Counted(plan, needs, runs, lane, node)
    ensures forall s :: s in plan.lanes[lane].selectors ==>
              exists node :: Counted(plan, needs, runs, lane, node) && Picks(s, node)
  {
    hide LaneAccepted, Aggregates, Picks, ReportOf, Counted, Distinct, EachPicked;
    LaneMeans(plan, lane, runs[lane]);
    forall node | node in runs[lane].collected ensures Counted(plan, needs, runs, lane, node) {
      NodeCounts(plan, needs, runs, reports, lane, node);
    }
    forall s | s in plan.lanes[lane].selectors
      ensures exists node :: Counted(plan, needs, runs, lane, node) && Picks(s, node)
    {
      var node :| node in runs[lane].collected && Picks(s, node);
      assert Counted(plan, needs, runs, lane, node);
    }
  }

  lemma LaneMeans(plan: Plan, lane: Lane, run: LaneRun)
    requires LaneAccepted(plan, lane, run)
    ensures run.returncode == 0 && run.deselected == [] && run.selected == run.collected != []
    ensures Distinct(run.collected)
    ensures EachPicked(plan.lanes[lane].selectors, run.collected)
    ensures EachPicks(plan.lanes[lane].selectors, run.collected)
  {
    hide Distinct, EachPicked, EachPicks, Accounted, SkipExpected;
    DistinctBySize(run.collected);
    AccountedPicks(plan.lanes[lane].selectors, run.collected);
  }

  lemma NodeCounts(plan: Plan, needs: Needs, runs: map<Lane, LaneRun>, reports: map<Lane, Report>, lane: Lane,
      node: string)
    requires Reported(plan, runs, reports) && Aggregates(plan, needs, reports)
    requires lane in plan.lanes && node in runs[lane].collected
    ensures Counted(plan, needs, runs, lane, node)
  {
    hide Aggregates, MadeGood, ReportOf, LaneAccepted;
    GateSound(plan, needs, runs, reports, lane, node);
  }

  lemma AccountedPicks(selectors: seq<string>, nodes: seq<string>)
    requires Accounted(Elements(selectors), nodes)
    ensures EachPicked(selectors, nodes) && EachPicks(selectors, nodes)
  {
    hide Matches, Picks;
    forall node | node in nodes ensures exists s :: s in selectors && Picks(s, node) {
      var s :| s in Elements(selectors) && Matches(s, node);
      MatchesPicks(s, node);
    }
    forall s | s in selectors ensures exists node :: node in nodes && Picks(s, node) {
      assert s in Elements(selectors);
      var node :| node in nodes && Matches(s, node);
      MatchesPicks(s, node);
    }
  }

  lemma {:induction false} DistinctBySize(s: seq<string>)
    requires |Elements(s)| == |s|
    ensures Distinct(s)
  {
    if s != [] {
      LastIsNew(s);
      DistinctBySize(s[..|s| - 1]);
    }
  }

  /** And for the workflow: exactly the plan, the lanes' test job and the selected jobs succeeded, and
      every other job was skipped. */
  lemma ProducersMean(plan: Plan, needs: Needs, reports: map<Lane, Report>)
    requires Aggregates(plan, needs, reports)
    ensures "plan" in needs && plan.jobs <= needs.Keys && (plan.lanes != map[] ==> "test" in needs)
    ensures forall job :: job in needs ==>
              if job == "plan" || job in plan.jobs || (job == "test" && plan.lanes != map[])
              then needs[job] == "success" else needs[job] == "skipped"
  {
    assert "plan" in Required(plan) && plan.jobs <= Required(plan);
    assert plan.lanes != map[] ==> "test" in Required(plan);
  }

  lemma OwnerPassed(plan: Plan, runs: map<Lane, LaneRun>, reports: map<Lane, Report>, edge: Edge)
    requires Reported(plan, runs, reports) && edge.producer.LaneProducer?
    requires edge.producer.lane in reports && edge.node in reports[edge.producer.lane].passedNodes
    ensures var run := runs[edge.producer.lane];
            && run.outcomes.Some? && edge.node in run.outcomes.value && run.outcomes.value[edge.node].TestPassed?
  {
    hide Accounted, SkipsListed;
    var owner := edge.producer.lane;
    assert LaneAccepted(plan, owner, runs[owner]) && ReportOf(reports[owner], plan, owner, runs[owner]);
  }

  /**
   The tests behave well under this allowlist: whatever a lane collects passes, or is skipped
   for an allowlisted reason; and a test passes in the lane that owns its skip elsewhere.
   */
  ghost predicate WellBehaved(plan: Plan, runs: map<Lane, LaneRun>, allowlist: seq<Entry>) {
    && (forall lane, node :: lane in runs && SkipsNode(runs[lane], node) ==>
          exists entry :: entry in allowlist && Excuses(entry, lane, node, runs[lane].outcomes.value[node].reason))
    && (forall entry :: entry in allowlist && Owner(entry.owner).Some? && Owner(entry.owner).value.LaneProducer? ==>
          PassesWhereOwned(runs, entry))
  }

  predicate SkipsNode(run: LaneRun, node: string) {
    run.outcomes.Some? && node in run.outcomes.value && run.outcomes.value[node].TestSkipped?
  }

  predicate Excuses(entry: Entry, lane: Lane, node: string, reason: string) {
    entry.lane == Baseline(lane) && entry.node == node && entry.reason == reason
  }

  ghost predicate PassesWhereOwned(runs: map<Lane, LaneRun>, entry: Entry)
    requires Owner(entry.owner).Some? && Owner(entry.owner).value.LaneProducer?
  {
    var owner := Owner(entry.owner).value.lane;
    owner in runs && runs[owner].outcomes.Some? && entry.node in runs[owner].outcomes.value ==>
      runs[owner].outcomes.value[entry.node].TestPassed?
  }

  /** Every lane collects exactly the tests of one inventory that its selectors match. */
  ghost predicate CollectsAll(plan: Plan, runs: map<Lane, LaneRun>, universe: set<string>) {
    && runs.Keys == plan.lanes.Keys
    && forall lane :: lane in runs ==>
         && Elements(runs[lane].collected)
              == (set n | n in universe && Covered(Elements(plan.lanes[lane].selectors), n))
         && runs[lane].outcomes.Some? && runs[lane].outcomes.value.Keys == Elements(runs[lane].collected)
  }

  /** The worker of a lane succeeds, and deselects or repeats nothing. */
  predicate RunsThrough(run: LaneRun) {
    && run.returncode == 0 && |Elements(run.collected)| == |run.collected| <= MAX_NODES
    && run.deselected == [] && run.selected == run.collected
  }

  /** Every lane selects something, and every selector has a test. */
  ghost predicate Inhabited(plan: Plan, universe: set<string>) {
    forall lane :: lane in plan.lanes ==>
      && plan.lanes[lane].selectors != []
      && forall s :: s in plan.lanes[lane].selectors ==> exists n :: n in universe && Matches(s, n)
  }

  lemma CollectedIsAccounted(plan: Plan, runs: map<Lane, LaneRun>, universe: set<string>, lane: Lane)
    requires CollectsAll(plan, runs, universe) && Inhabited(plan, universe)
    requires lane in runs && RunsThrough(runs[lane])
    ensures lane in plan.lanes && LaneCollected(plan, lane, runs[lane])
  {
    hide Accounted, CollectsAll, Inhabited;
    CollectedAccounts(plan, runs, universe, lane);
  }

  lemma CollectedAccounts(plan: Plan, runs: map<Lane, LaneRun>, universe: set<string>, lane: Lane)
    requires CollectsAll(plan, runs, universe) && Inhabited(plan, universe) && lane in runs
    ensures lane in plan.lanes && Accounted(Elements(plan.lanes[lane].selectors), runs[lane].collected)
    ensures runs[lane].collected != [] && runs[lane].outcomes.Some?
    ensures runs[lane].outcomes.value.Keys == Elements(runs[lane].collected)
  {
    hide Matches;
    var selectors, nodes := plan.lanes[lane].selectors, runs[lane].collected;
    forall s | s in Elements(selectors) ensures exists node | node in nodes :: Matches(s, node) {
      var n :| n in universe && Matches(s, n);
      assert Covered(Elements(selectors), n);
      assert n in Elements(nodes);
    }
    assert selectors[0] in Elements(selectors);
    forall node | node in nodes ensures Covered(Elements(selectors), node) {
      assert node in Elements(nodes);
    }
  }

  /** Every skip of a closed plan is one that `verify_lane` expects. */
  lemma ClosedExpectsSkip(plan: Plan, runs: map<Lane, LaneRun>, allowlist: seq<Entry>, universe: set<string>,
      lane: Lane, node: string)
    requires PlanClosed(plan, allowlist) && WellBehaved(plan, runs, allowlist) && CollectsAll(plan, runs, universe)
    requires lane in runs && node in runs[lane].outcomes.value
    ensures SkipExpected(plan, lane, node, runs[lane].outcomes.value[node])
  {
    hide Matches, Covered, EdgesJustified;
    var outcome := runs[lane].outcomes.value[node];
    if outcome.TestSkipped? {
      assert SkipsNode(runs[lane], node);
      var entry :| entry in allowlist && Excuses(entry, lane, node, outcome.reason);
      assert node in Elements(runs[lane].collected);
      assert Triggered(WorkOf(plan).lanes, lane, entry);
      assert Discharged(WorkOf(plan), lane, entry);
      ExpectedSkipFound(plan.edges, lane, node, outcome.reason);
      assert EdgeFor(lane, entry, Owner(entry.owner).value) in plan.edges;
    }
  }

  /** In a closed plan, the owner of an expected skip has collected the node and passed it. */
  lemma ClosedOwnerRan(plan: Plan, needs: Needs, runs: map<Lane, LaneRun>, allowlist: seq<Entry>, universe: set<string>,
      edge: Edge)
    requires PlanClosed(plan, allowlist) && WellBehaved(plan, runs, allowlist) && CollectsAll(plan, runs, universe)
    requires ProducersOk(plan, needs) && edge in plan.edges && edge.node in universe
    ensures ReallyRan(plan, needs, runs, edge)
  {
  }

  /**
   Completeness.  For a closed plan whose lanes collect their tests from one inventory, tests
   that behave well are never refused: every lane's run is accepted, and if the jobs of the
   plan succeed, so is the whole.
   */
  lemma GateComplete(plan: Plan, needs: Needs, runs: map<Lane, LaneRun>, reports: map<Lane, Report>,
                     allowlist: seq<Entry>, universe: set<string>)
    requires PlanClosed(plan, allowlist) && WellBehaved(plan, runs, allowlist) && CollectsAll(plan, runs, universe)
    requires Inhabited(plan, universe) && forall lane :: lane in runs ==> RunsThrough(runs[lane])
    requires ProducersOk(plan, needs) && reports.Keys == runs.Keys
    requires forall lane :: lane in runs ==> ReportOf(reports[lane], plan, lane, runs[lane])
    ensures forall lane :: lane in runs ==> LaneAccepted(plan, lane, runs[lane])
    ensures Aggregates(plan, needs, reports)
  {
    hide PlanClosed, WellBehaved, ProducersOk, Inhabited, RunsThrough, LaneAccepted, ReportOf, LaneAggregates;
    forall lane | lane in runs ensures LaneAccepted(plan, lane, runs[lane]) {
      LaneComplete(plan, runs, allowlist, universe, lane);
    }
    forall lane | lane in reports ensures LaneAggregates(plan, needs, reports, lane) {
      ReportComplete(plan, needs, runs, reports, allowlist, universe, lane);
    }
  }

  lemma LaneComplete(plan: Plan, runs: map<Lane, LaneRun>, allowlist: seq<Entry>, universe: set<string>, lane: Lane)
    requires PlanClosed(plan, allowlist) && WellBehaved(plan, runs, allowlist) && CollectsAll(plan, runs, universe)
    requires Inhabited(plan, universe) && lane in runs && RunsThrough(runs[lane])
    ensures LaneAccepted(plan, lane, runs[lane])
  {
    hide PlanClosed, WellBehaved, Inhabited, RunsThrough, CollectsAll, SkipExpected, Accounted;
    CollectedIsAccounted(plan, runs, universe, lane);
    forall node | node in runs[lane].outcomes.value
      ensures SkipExpected(plan, lane, node, runs[lane].outcomes.value[node])
    {
      ClosedExpectsSkip(plan, runs, allowlist, universe, lane, node);
    }
  }

  lemma ReportComplete(plan: Plan, needs: Needs, runs: map<Lane, LaneRun>, reports: map<Lane, Report>,
                       allowlist: seq<Entry>, universe: set<string>, lane: Lane)
    requires PlanClosed(plan, allowlist) && WellBehaved(plan, runs, allowlist) && CollectsAll(plan, runs, universe)
    requires ProducersOk(plan, needs) && Reported(plan, runs, reports) && lane in reports
    ensures LaneAggregates(plan, needs, reports, lane)
  {
    hide PlanClosed, WellBehaved, CollectsAll, ProducersOk, SkipMadeGood, SkipsListed, Accounted, SkipExpected;
    assert LaneAccepted(plan, lane, runs[lane]) && ReportOf(reports[lane], plan, lane, runs[lane]);
    forall edge | edge in reports[lane].skips ensures SkipMadeGood(plan, needs, reports, edge) {
      SkipsMadeGood(plan, needs, runs, reports, allowlist, universe, lane, edge);
    }
  }

  lemma SkipsMadeGood(plan: Plan, needs: Needs, runs: map<Lane, LaneRun>, reports: map<Lane, Report>,
                      allowlist: seq<Entry>, universe: set<string>, lane: Lane, edge: Edge)
    requires PlanClosed(plan, allowlist) && WellBehaved(plan, runs, allowlist) && CollectsAll(plan, runs, universe)
    requires ProducersOk(plan, needs) && Reported(plan, runs, reports)
    requires lane in reports && edge in reports[lane].skips
    ensures SkipMadeGood(plan, needs, reports, edge)
  {
    hide Matches, ExpectedSkip, Covered, PlanClosed, WellBehaved, ProducersOk, Accounted;
    var outcomes := runs[lane].outcomes.value;
    assert LaneAccepted(plan, lane, runs[lane]) && ReportOf(reports[lane], plan, lane, runs[lane]);
    var node :| SkippedUnder(plan, lane, outcomes, node, edge);
    ExpectedSkipFound(plan.edges, lane, node, outcomes[node].reason);
    assert node in Elements(runs[lane].collected);
    ClosedOwnerRan(plan, needs, runs, allowlist, universe, edge);
    if edge.producer.LaneProducer? {
      var owner := edge.producer.lane;
      assert ReportOf(reports[owner], plan, owner, runs[owner]);
    }
  }
}
