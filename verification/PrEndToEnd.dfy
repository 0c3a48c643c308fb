/** From the selected tests to the verdict: `select`, `enrich_impact` and the gate of pr_ci.py together. */
module PrEndToEnd {
  import opened Results
  import opened Sorting
  import opened NodeIds
  import opened Selectors
  import opened PrPlan
  import opened PrImpact
  import opened PrGate

  /** What `select` returns for the tests and jobs it starts from. */
  ghost predicate Selected(plan: Plan, start: Work, allowlist: seq<Entry>) {
    exists w :: Closed(w, allowlist) && Kept(w, start, allowlist) && FinishedFrom(plan, w)
  }

  /** What `select` takes from the policy: the helpers of the selected groups in each lane, the
      helpers that the tests of a file need, and the test files of the documentation group. */
  datatype Policy = Policy(helpers: map<Lane, set<string>>, owners: map<string, set<string>>, docs: set<string>)

  datatype SelectRefusal = UnmappedSkipOwner(owner: Suite) | UnknownHelper | WholeInventory

  const HELPERS := {"typescript", "go", "rust", "haskell"}

  function OwnedHelpers(policy: Policy, nodes: set<string>): set<string> {
    set n, h | n in nodes && FileName(n) in policy.owners && h in policy.owners[FileName(n)] :: h
  }

  /** The toolchains lane also gets the helpers of its tests and of the skips it makes good. */
  function LaneHelpers(w: Work, policy: Policy, lane: Lane): set<string> {
    Tests(policy.helpers, lane)
    + if lane != Toolchains then {} else
      OwnedHelpers(policy, Tests(w.lanes, lane))
      + OwnedHelpers(policy, set edge | edge in w.edges && edge.producer == LaneProducer(lane) :: edge.node)
  }

  function AllHelpers(w: Work, policy: Policy): map<Lane, set<string>> {
    map lane | lane in w.lanes :: LaneHelpers(w, policy, lane)
  }

  function ProfileFor(w: Work, groups: set<string>, policy: Policy): set<string> {
    if groups == {"docs"} && FilesOf(w.lanes) <= policy.docs then {"dev"}
    else if MCP_JOB in w.jobs then {"dev", "mcp", "tokens"}
    else {"dev", "tokens"}
  }

  predicate HelpersKnown(w: Work, policy: Policy) {
    forall lane | lane in w.lanes :: LaneHelpers(w, policy, lane) <= HELPERS
  }

  predicate PartOf(w: Work, inventory: set<string>) {
    |inventory| <= 1 || FilesOf(w.lanes) != inventory
  }

  /** What `select` makes of the closed work: it refuses helpers it does not know and the complete
      test inventory, and nothing else. */
  ghost predicate Concludes(r: Result<Plan, SelectRefusal>, w: Work, groups: set<string>, policy: Policy,
      inventory: set<string>)
  {
    if !HelpersKnown(w, policy) then r == Err(UnknownHelper)
    else if !PartOf(w, inventory) then r == Err(WholeInventory)
    else
      && r.Ok? && FinishedFrom(r.value, w) && Native(r.value) && r.value.groups == groups
      && forall lane :: lane in r.value.lanes ==>
           && r.value.lanes[lane].helpers == LaneHelpers(w, policy, lane)
           && r.value.lanes[lane].profile == ProfileFor(w, groups, policy)
  }

  /** The end of `select`: the skip-owner closure, the last two refusals, then the plan of its lanes. */
  method Select(start: Work, allowlist: seq<Entry>, groups: set<string>, policy: Policy, inventory: set<string>)
    returns (r: Result<Plan, SelectRefusal>)
    requires start.edges == []
    ensures r.Err? && r.error.UnmappedSkipOwner? <==> !Closable(start, allowlist)
    ensures Closable(start, allowlist) ==>
              exists w :: Concludes(r, w, groups, policy, inventory)
                          && Closed(w, allowlist) && Kept(w, start, allowlist)
    ensures r.Ok? ==> Native(r.value) && Selected(r.value, start, allowlist)
  {
    hide Closed, Kept, FinishedFrom, Closable, Native, LaneHelpers, ProfileFor, FilesOf;
    var closure := CloseSkips(start, allowlist);
    if closure.Err? {
      return Err(UnmappedSkipOwner(closure.error));
    }
    var w := closure.value;
    if !HelpersKnown(w, policy) {
      r := Err(UnknownHelper);
    } else if !PartOf(w, inventory) {
      r := Err(WholeInventory);
    } else {
      var plan := FinishPlan(w, groups, AllHelpers(w, policy), ProfileFor(w, groups, policy));
      r := Ok(plan);
    }
    assert Concludes(r, w, groups, policy, inventory);
  }

  lemma SelectedClosed(plan: Plan, start: Work, allowlist: seq<Entry>)
    requires Selected(plan, start, allowlist)
    ensures PlanClosed(plan, allowlist)
  {
    hide Closed, FinishedFrom, PlanClosed;
    var w :| Closed(w, allowlist) && Kept(w, start, allowlist) && FinishedFrom(plan, w);
    FinishedClosed(plan, w, allowlist);
  }

  /** Every hint that was selected at all is what `select` returns for some tests. */
  ghost predicate SelectedHints(hints: seq<Hint>, allowlist: seq<Entry>) {
    forall h :: h in hints && h.Some? ==> exists start :: Selected(h.value, start, allowlist)
  }

  lemma EnrichedIsClosed(floor: Plan, start: Work, hints: seq<Hint>, inventory: set<string>, allowlist: seq<Entry>)
    requires Selected(floor, start, allowlist) && SelectedHints(hints, allowlist)
    ensures PlanClosed(Enriched(floor, hints, inventory), allowlist)
  {
    hide Selected, PlanClosed;
    SelectedClosed(floor, start, allowlist);
    forall h | h in hints && h.Some? ensures PlanClosed(h.value, allowlist) {
      var from :| Selected(h.value, from, allowlist);
      SelectedClosed(h.value, from, allowlist);
    }
    EnrichedClosed(floor, hints, inventory, allowlist);
  }

  /**
   For whatever tests are selected and whatever hints come in: the gate accepts every run of the
   effective plan in which the tests behave and the jobs succeed.
   */
  lemma PlannedGateComplete(floor: Plan, start: Work, hints: seq<Hint>, inventory: set<string>, allowlist: seq<Entry>,
                            needs: Needs, runs: map<Lane, LaneRun>, reports: map<Lane, Report>, universe: set<string>)
    requires Selected(floor, start, allowlist) && SelectedHints(hints, allowlist)
    requires var plan := Enriched(floor, hints, inventory);
             && WellBehaved(plan, runs, allowlist) && CollectsAll(plan, runs, universe) && ProducersOk(plan, needs)
             && reports.Keys == runs.Keys && Inhabited(plan, universe)
             && forall lane :: lane in runs ==>
                  RunsThrough(runs[lane]) && ReportOf(reports[lane], plan, lane, runs[lane])
    ensures var plan := Enriched(floor, hints, inventory);
            && Aggregates(plan, needs, reports)
            && forall lane :: lane in runs ==> LaneAccepted(plan, lane, runs[lane])
  {
    hide *;
    EnrichedIsClosed(floor, start, hints, inventory, allowlist);
    GateComplete(Enriched(floor, hints, inventory), needs, runs, reports, allowlist, universe);
  }

  /**
   And what it accepts is sound for every lane of the floor: the lane is in the effective plan; each
   node it collected passed, or was made good where it is owned; and every selector of the floor is
   picked by a selector of the effective plan under which some such node was collected.
   */
  lemma PlannedGateSound(floor: Plan, hints: seq<Hint>, inventory: set<string>, needs: Needs, runs: map<Lane, LaneRun>,
                         reports: map<Lane, Report>, lane: Lane)
    requires Native(floor) && NativeHints(hints)
    requires var plan := Enriched(floor, hints, inventory);
             Reported(plan, runs, reports) && Aggregates(plan, needs, reports)
    requires lane in floor.lanes
    ensures var plan := Enriched(floor, hints, inventory);
            && AdditiveFloor(floor, plan) && lane in plan.lanes && lane in runs
            && (forall node :: node in runs[lane].collected ==> Counted(plan, needs, runs, lane, node))
            && (forall s :: s in floor.lanes[lane].selectors ==>
                  exists wider, node :: wider in plan.lanes[lane].selectors && Picks(wider, s)
                                        && Counted(plan, needs, runs, lane, node) && Picks(wider, node))
  {
    hide Aggregates, Reported, Native, Enriched, Picks, Counted, Matches;
    EnrichedFloor(floor, hints, inventory);
    var plan := Enriched(floor, hints, inventory);
    GateMeans(plan, needs, runs, reports, lane);
    forall s | s in floor.lanes[lane].selectors
      ensures exists wider, node :: wider in plan.lanes[lane].selectors && Picks(wider, s)
                                    && Counted(plan, needs, runs, lane, node) && Picks(wider, node)
    {
      assert LaneFloor(floor.lanes[lane], plan.lanes[lane]);
      var wider :| wider in plan.lanes[lane].selectors && Matches(wider, s);
      MatchesPicks(wider, s);
    }
  }

  /** When the lanes collect all the tests there are, every selector of the floor that has a test
      has one that was collected and counted. */
  lemma PlannedSelectorsRan(floor: Plan, hints: seq<Hint>, inventory: set<string>, needs: Needs,
                            runs: map<Lane, LaneRun>, reports: map<Lane, Report>, universe: set<string>,
                            lane: Lane, s: string, node: string)
    requires Native(floor) && NativeHints(hints)
    requires var plan := Enriched(floor, hints, inventory);
             Reported(plan, runs, reports) && Aggregates(plan, needs, reports) && CollectsAll(plan, runs, universe)
    requires lane in floor.lanes && s in floor.lanes[lane].selectors && node in universe && Picks(s, node)
    ensures lane in runs && Counted(Enriched(floor, hints, inventory), needs, runs, lane, node)
  {
    hide Aggregates, Reported, Native, Enriched, Picks, Counted, Matches;
    PlannedGateSound(floor, hints, inventory, needs, runs, reports, lane);
    var plan := Enriched(floor, hints, inventory);
    var wider :| wider in plan.lanes[lane].selectors && Picks(wider, s);
    MatchesPicks(wider, s);
    MatchesPicks(s, node);
    MatchesOrder(wider, s, node);
    assert wider in Elements(plan.lanes[lane].selectors) && Covered(Elements(plan.lanes[lane].selectors), node);
    assert node in Elements(runs[lane].collected);
  }

  lemma {:induction false} EnrichedFloor(floor: Plan, hints: seq<Hint>, inventory: set<string>)
    requires Native(floor) && NativeHints(hints)
    ensures AdditiveFloor(floor, Enriched(floor, hints, inventory)) && Native(Enriched(floor, hints, inventory))
  {
    hide Merge, Partial, AdditiveFloor, Native;
    FloorOrder(floor, floor, floor);
    if hints != [] {
      EnrichedFloor(floor, hints[..|hints| - 1], inventory);
      var current, hint := Enriched(floor, hints[..|hints| - 1], inventory), hints[|hints| - 1];
      if hint.Some? {
        MergeFloor(current, hint.value);
        FloorOrder(floor, current, Merge(current, hint.value));
      }
    }
  }

  // ----- a selector of the floor without a run of its own

  function PlanFor(selector: string): Plan {
    Plan({}, map[Ubuntu := LanePlan(LaneRuntime(Ubuntu), [selector], {}, {})], {}, [])
  }

  function PassedOnly(node: string): LaneRun {
    LaneRun(0, [node], [node], [], Some(map[node := TestPassed]))
  }

  const BOTH_JOBS: Needs := map["plan" := SUCCESS, "test" := SUCCESS]

  lemma WidenedSelectors(file: string, test: string)
    requires Matches(file, test) && file != test
    ensures Sorted(Minimal(Elements([test]) + Elements([file]))) == [file]
  {
    hide Matches;
    MatchesOrder(file, test, file);
    MatchesOrder(test, file, test);
    var both := Elements([test]) + Elements([file]);
    assert both == {test, file};
    assert Minimal(both) == {file};
    var sorted := Sorted({file});
    assert |sorted| == 1 && sorted[0] in Elements(sorted);
  }

  lemma WidenedLane(runtime: Runtime, file: string, test: string)
    requires Matches(file, test) && file != test
    ensures MergeLane(LanePlan(runtime, [test], {}, {}), LanePlan(runtime, [file], {}, {}))
         == LanePlan(runtime, [file], {}, {})
  {
    hide Matches, Sorted, Minimal, Elements;
    WidenedSelectors(file, test);
  }

  lemma WidenedPlan(file: string, test: string)
    requires Matches(file, test) && file != test
    ensures Enriched(PlanFor(test), [Some(PlanFor(file))], {}) == PlanFor(file)
  {
    hide Matches, MergeLane, LaneRuntime;
    var floor, hints := PlanFor(test), [Some(PlanFor(file))];
    assert hints[..0] == [] && Enriched(floor, hints[..0], {}) == floor;
    WidenedLane(LaneRuntime(Ubuntu), file, test);
    assert MergeEdges([], []) == [];
    assert MergeLanes(floor.lanes, PlanFor(file).lanes) == PlanFor(file).lanes;
  }

  /** A hint that names the file of a selected test makes way for a run that collects another test of
      the file only: the gate accepts it, and nothing under the floor's own selector ran. */
  lemma FloorSelectorCanVanish(file: string, test: string, other: string)
    requires Picks(file, test) && Picks(file, other) && file != test && !Picks(test, other)
    ensures Native(PlanFor(test)) && NativeHints([Some(PlanFor(file))])
    ensures var plan := Enriched(PlanFor(test), [Some(PlanFor(file))], {});
            && Reported(plan, map[Ubuntu := PassedOnly(other)], map[Ubuntu := OnlyReport(other)])
            && Aggregates(plan, BOTH_JOBS, map[Ubuntu := OnlyReport(other)])
    ensures forall node :: node in PassedOnly(other).collected ==> !Picks(test, node)
  {
    hide Matches, Picks, Enriched, Reported, Aggregates;
    MatchesPicks(file, test);
    MatchesPicks(file, other);
    WidenedPlan(file, test);
    OneReported(file, other);
    OneAggregates(file, other);
  }

  function OnlyReport(node: string): Report {
    Report(Ubuntu, 1, 1, 0, [], {node})
  }

  lemma OneAccepted(file: string, other: string)
    requires Matches(file, other)
    ensures LaneAccepted(PlanFor(file), Ubuntu, PassedOnly(other))
  {
    hide Matches, LaneRuntime;
    assert Elements([other]) == {other} && Elements([file]) == {file};
    assert [file][0] == file && [other][0] == other;
    assert Covered({file}, other);
    assert Accounted({file}, [other]);
  }

  lemma OneReportOf(file: string, other: string)
    ensures ReportOf(OnlyReport(other), PlanFor(file), Ubuntu, PassedOnly(other))
  {
    hide LaneRuntime, ExpectedSkip;
    var run := PassedOnly(other);
    assert (set node | node in run.outcomes.value && run.outcomes.value[node].TestPassed?) == {other};
  }

  lemma OneReported(file: string, other: string)
    requires Matches(file, other)
    ensures Reported(PlanFor(file), map[Ubuntu := PassedOnly(other)], map[Ubuntu := OnlyReport(other)])
  {
    hide LaneAccepted, ReportOf, LaneRuntime, Matches;
    OneAccepted(file, other);
    OneReportOf(file, other);
  }

  lemma OneAggregates(file: string, other: string)
    ensures Aggregates(PlanFor(file), BOTH_JOBS, map[Ubuntu := OnlyReport(other)])
  {
    hide LaneRuntime, SkipMadeGood;
    assert Ubuntu in PlanFor(file).lanes;
    assert Required(PlanFor(file)) == {"plan", "test"};
  }
}
