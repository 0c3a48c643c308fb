/**
 The finished plan of pr_ci.py, the additive merge of impact hints in `enrich_impact`, and the
 floor check that guards it.
 */
module PrImpact {
  import opened Results
  import opened Sorting
  import opened NodeIds
  import opened Selectors
  import opened PrPlan

  /** The declared runtime of a lane: os, python, platform. */
  datatype Runtime = Runtime(os: string, python: string, platform: string)

  datatype LanePlan = LanePlan(runtime: Runtime, selectors: seq<string>, helpers: set<string>, profile: set<string>)

  datatype Plan = Plan(groups: set<string>, lanes: map<Lane, LanePlan>, jobs: set<string>, edges: seq<Edge>)

  function LaneRuntime(lane: Lane): Runtime {
    match lane
    case Ubuntu => Runtime("ubuntu-24.04", "3.13", "linux")
    case MinimumPython => Runtime("ubuntu-24.04", "3.11", "linux")
    case Windows => Runtime("windows-2025", "3.13", "win32")
    case Macos => Runtime("macos-15", "3.14", "darwin")
    case Toolchains => Runtime("ubuntu-24.04", "3.13", "linux")
  }

  /** Every lane of the plan runs in its declared runtime. */
  ghost predicate Native(plan: Plan) {
    forall lane :: lane in plan.lanes ==> plan.lanes[lane].runtime == LaneRuntime(lane)
  }

  function SelectorsOf(plan: Plan): map<Lane, set<string>> {
    map lane | lane in plan.lanes :: Elements(plan.lanes[lane].selectors)
  }

  /** The plan read back as what the skip closure speaks of. */
  function WorkOf(plan: Plan): Work {
    Work(SelectorsOf(plan), plan.jobs, plan.edges)
  }

  ghost predicate PlanClosed(plan: Plan, allowlist: seq<Entry>) {
    Closed(WorkOf(plan), allowlist) && EdgesJustified(WorkOf(plan), allowlist)
  }

  /** The lanes that `select` returns: those with tests, each with its compacted selectors. */
  method FinishPlan(w: Work, groups: set<string>, helpers: map<Lane, set<string>>, profile: set<string>)
    returns (plan: Plan)
    ensures plan.groups == groups && plan.jobs == w.jobs && plan.edges == w.edges && Native(plan)
    ensures plan.lanes.Keys == set lane | lane in w.lanes && w.lanes[lane] != {}
    ensures forall lane :: lane in plan.lanes ==>
              plan.lanes[lane]
              == LanePlan(LaneRuntime(lane), Sorted(Minimal(w.lanes[lane])), Tests(helpers, lane), profile)
    ensures FinishedFrom(plan, w)
  {
    hide Minimal, LaneRuntime;
    var lanes: map<Lane, LanePlan> := map[];
    for i := 0 to |LANE_ORDER|
      invariant forall lane :: lane in lanes <==> lane in LANE_ORDER[..i] && lane in w.lanes && w.lanes[lane] != {}
      invariant forall lane :: lane in lanes ==>
                  lanes[lane]
                  == LanePlan(LaneRuntime(lane), Sorted(Minimal(w.lanes[lane])), Tests(helpers, lane), profile)
    {
      var lane := LANE_ORDER[i];
      assert LANE_ORDER[..i + 1] == LANE_ORDER[..i] + [lane];
      if lane in w.lanes && w.lanes[lane] != {} {
        var selectors := Compact(w.lanes[lane]);
        lanes := lanes[lane := LanePlan(LaneRuntime(lane), selectors, Tests(helpers, lane), profile)];
      }
    }
    assert LANE_ORDER[..|LANE_ORDER|] == LANE_ORDER;
    forall lane: Lane ensures lane in LANE_ORDER { var _ := LaneIndex(lane); }
    plan := Plan(groups, lanes, w.jobs, w.edges);
  }

  ghost predicate FinishedFrom(plan: Plan, w: Work) {
    && plan.jobs == w.jobs && plan.edges == w.edges
    && plan.lanes.Keys == (set lane | lane in w.lanes && w.lanes[lane] != {})
    && forall lane :: lane in plan.lanes ==> Elements(plan.lanes[lane].selectors) == Minimal(w.lanes[lane])
  }

  /** Compacting a lane and dropping empty lanes changes no coverage. */
  lemma FinishedCoverage(plan: Plan, w: Work, lane: Lane, node: string)
    requires FinishedFrom(plan, w)
    ensures lane in plan.lanes && Covered(Tests(SelectorsOf(plan), lane), node)
       <==> lane in w.lanes && Covered(w.lanes[lane], node)
  {
    hide Matches, Minimal;
    if lane in w.lanes { MinimalCovers(w.lanes[lane], node); }
  }

  /** So the plan that `select` returns is closed like the work it came from. */
  lemma FinishedClosed(plan: Plan, w: Work, allowlist: seq<Entry>)
    requires FinishedFrom(plan, w) && Closed(w, allowlist) && EdgesJustified(w, allowlist)
    ensures PlanClosed(plan, allowlist)
  {
    hide Matches, Covered, FinishedFrom;
    FinishedFields(plan, w);
    var v := WorkOf(plan);
    forall lane, entry | entry in allowlist && Triggered(v.lanes, lane, entry) ensures Discharged(v, lane, entry) {
      FinishedCoverage(plan, w, lane, entry.node);
      assert Triggered(w.lanes, lane, entry) && Discharged(w, lane, entry);
      var owner := Owner(entry.owner).value;
      if owner.LaneProducer? { FinishedCoverage(plan, w, owner.lane, entry.node); }
    }
    forall edge | edge in v.edges ensures exists entry :: Justifies(v, edge, entry, allowlist) {
      var entry :| Justifies(w, edge, entry, allowlist);
      FinishedCoverage(plan, w, edge.lane, entry.node);
      assert Justifies(v, edge, entry, allowlist);
    }
  }

  lemma FinishedFields(plan: Plan, w: Work)
    requires FinishedFrom(plan, w)
    ensures plan.jobs == w.jobs && plan.edges == w.edges
  {
  }

  // ----- the floor

  /** `additive_floor` returns normally. */
  ghost predicate AdditiveFloor(floor: Plan, effective: Plan) {
    && floor.jobs <= effective.jobs && floor.groups <= effective.groups
    && (forall lane :: lane in floor.lanes ==>
         lane in effective.lanes && LaneFloor(floor.lanes[lane], effective.lanes[lane]))
    && (forall edge :: edge in floor.edges ==> edge in effective.edges)
  }

  predicate LaneFloor(data: LanePlan, target: LanePlan) {
    && target.runtime == data.runtime
    && (forall old_ | old_ in data.selectors :: exists new_ | new_ in target.selectors :: Matches(new_, old_))
    && data.helpers <= target.helpers && data.profile <= target.profile
  }

  lemma LaneFloorOrder(a: LanePlan, b: LanePlan, c: LanePlan)
    ensures LaneFloor(a, a)
    ensures LaneFloor(a, b) && LaneFloor(b, c) ==> LaneFloor(a, c)
  {
    hide Matches;
    forall s | s in a.selectors ensures exists t :: t in a.selectors && Matches(t, s) { MatchesOrder(s, s, s); }
    if LaneFloor(a, b) && LaneFloor(b, c) {
      forall s | s in a.selectors ensures exists u :: u in c.selectors && Matches(u, s) {
        var t :| t in b.selectors && Matches(t, s);
        var u :| u in c.selectors && Matches(u, t);
        MatchesOrder(u, t, s);
      }
    }
  }

  /** The floor check is a preorder: later merges cannot fall below an earlier floor. */
  lemma FloorOrder(a: Plan, b: Plan, c: Plan)
    ensures AdditiveFloor(a, a)
    ensures AdditiveFloor(a, b) && AdditiveFloor(b, c) ==> AdditiveFloor(a, c)
  {
    hide LaneFloor;
    forall lane | lane in a.lanes ensures LaneFloor(a.lanes[lane], a.lanes[lane]) {
      LaneFloorOrder(a.lanes[lane], a.lanes[lane], a.lanes[lane]);
    }
    if AdditiveFloor(a, b) && AdditiveFloor(b, c) {
      forall lane | lane in a.lanes ensures LaneFloor(a.lanes[lane], c.lanes[lane]) {
        LaneFloorOrder(a.lanes[lane], b.lanes[lane], c.lanes[lane]);
      }
    }
  }

  // ----- the merge of one hint

  function MergeLane(target: LanePlan, value: LanePlan): LanePlan {
    target.(selectors := Sorted(Minimal(Elements(target.selectors) + Elements(value.selectors))),
            helpers := target.helpers + value.helpers, profile := target.profile + value.profile)
  }

  function MergeLanes(current: map<Lane, LanePlan>, addition: map<Lane, LanePlan>): map<Lane, LanePlan> {
    map lane | lane in current.Keys + addition.Keys ::
      if lane !in current then addition[lane]
      else if lane !in addition then current[lane]
      else MergeLane(current[lane], addition[lane])
  }

  /** The edges of both plans, each once. */
  function MergeEdges(current: seq<Edge>, addition: seq<Edge>): seq<Edge>
    decreases |addition|
  {
    if addition == [] then current
    else MergeEdges(if addition[0] in current then current else current + [addition[0]], addition[1..])
  }

  /** The candidate that `enrich_impact` builds from the current plan and one selected hint. */
  function Merge(current: Plan, addition: Plan): Plan {
    Plan(current.groups + addition.groups, MergeLanes(current.lanes, addition.lanes),
         current.jobs + addition.jobs, MergeEdges(current.edges, addition.edges))
  }

  lemma {:induction false} MergedEdges(current: seq<Edge>, addition: seq<Edge>)
    ensures forall edge :: edge in MergeEdges(current, addition) <==> edge in current || edge in addition
    decreases |addition|
  {
    if addition != [] {
      MergedEdges(if addition[0] in current then current else current + [addition[0]], addition[1..]);
      assert addition == [addition[0]] + addition[1..];
    }
  }

  lemma MergedSelectors(target: LanePlan, value: LanePlan, node: string)
    ensures Covered(Elements(MergeLane(target, value).selectors), node)
       <==> Covered(Elements(target.selectors), node) || Covered(Elements(value.selectors), node)
  {
    hide Matches, Minimal;
    MinimalCovers(Elements(target.selectors) + Elements(value.selectors), node);
  }

  lemma MergeLaneFloor(target: LanePlan, value: LanePlan)
    requires target.runtime == value.runtime
    ensures LaneFloor(target, MergeLane(target, value)) && LaneFloor(value, MergeLane(target, value))
  {
    hide Matches, Minimal;
    var merged := MergeLane(target, value);
    forall s | s in target.selectors || s in value.selectors
      ensures exists t :: t in merged.selectors && Matches(t, s)
    {
      MatchesOrder(s, s, s);
      assert s in Elements(target.selectors) || s in Elements(value.selectors);
      MergedSelectors(target, value, s);
      var t :| t in Elements(merged.selectors) && Matches(t, s);
    }
  }

  /** A merged candidate covers both the plan it started from and the hint. */
  lemma MergeFloor(current: Plan, addition: Plan)
    requires Native(current) && Native(addition)
    ensures AdditiveFloor(current, Merge(current, addition)) && AdditiveFloor(addition, Merge(current, addition))
    ensures Native(Merge(current, addition))
  {
    hide LaneFloor, MergeLane, LaneRuntime;
    var merged := Merge(current, addition);
    MergedEdges(current.edges, addition.edges);
    forall lane | lane in merged.lanes
      ensures lane in current.lanes ==> LaneFloor(current.lanes[lane], merged.lanes[lane])
      ensures lane in addition.lanes ==> LaneFloor(addition.lanes[lane], merged.lanes[lane])
      ensures merged.lanes[lane].runtime == LaneRuntime(lane)
    {
      LaneFloorOrder(merged.lanes[lane], merged.lanes[lane], merged.lanes[lane]);
      if lane in current.lanes && lane in addition.lanes {
        MergeLaneFloor(current.lanes[lane], addition.lanes[lane]);
        MergeLaneRuntime(current.lanes[lane], addition.lanes[lane]);
      }
    }
  }

  lemma MergeLaneRuntime(target: LanePlan, value: LanePlan)
    ensures MergeLane(target, value).runtime == target.runtime
  {
  }

  predicate CoversIn(plan: Plan, lane: Lane, node: string) {
    lane in plan.lanes && Covered(Elements(plan.lanes[lane].selectors), node)
  }

  /** What a merged plan covers in a lane is what either part covers there. */
  lemma MergedCoverage(current: Plan, addition: Plan, lane: Lane, node: string)
    ensures CoversIn(Merge(current, addition), lane, node)
       <==> CoversIn(current, lane, node) || CoversIn(addition, lane, node)
  {
    hide Matches, MergeLane, Covered;
    if lane in current.lanes && lane in addition.lanes {
      MergedSelectors(current.lanes[lane], addition.lanes[lane], node);
    }
  }

  /** Closure of the skip obligations survives the union and the compaction. */
  lemma MergeClosed(current: Plan, addition: Plan, allowlist: seq<Entry>)
    requires PlanClosed(current, allowlist) && PlanClosed(addition, allowlist)
    ensures PlanClosed(Merge(current, addition), allowlist)
  {
    hide Covered, MergeLanes, MergeEdges;
    var merged := Merge(current, addition);
    var w, a, b := WorkOf(merged), WorkOf(current), WorkOf(addition);
    MergedEdges(current.edges, addition.edges);
    forall lane, entry | entry in allowlist && Triggered(w.lanes, lane, entry) ensures Discharged(w, lane, entry) {
      MergedCoverage(current, addition, lane, entry.node);
      assert Triggered(a.lanes, lane, entry) || Triggered(b.lanes, lane, entry);
      assert Discharged(a, lane, entry) || Discharged(b, lane, entry);
      var owner := Owner(entry.owner).value;
      if owner.LaneProducer? { MergedCoverage(current, addition, owner.lane, entry.node); }
    }
    forall edge | edge in w.edges ensures exists entry :: Justifies(w, edge, entry, allowlist) {
      if edge in a.edges {
        var entry :| Justifies(a, edge, entry, allowlist);
        MergedCoverage(current, addition, edge.lane, entry.node);
        assert Justifies(w, edge, entry, allowlist);
      } else {
        var entry :| Justifies(b, edge, entry, allowlist);
        MergedCoverage(current, addition, edge.lane, entry.node);
        assert Justifies(w, edge, entry, allowlist);
      }
    }
  }

  // ----- the merge loop

  datatype Admission = Admitted | Rejected

  /** A hint: the plan `select` made of it, or nothing where `select` or an earlier check refused. */
  type Hint = Option<Plan>

  function FilesOf(lanes: map<Lane, set<string>>): set<string> {
    set lane, s | lane in lanes && s in lanes[lane] :: FileName(s)
  }

  function SelectedFiles(plan: Plan): set<string> {
    FilesOf(SelectorsOf(plan))
  }

  /** The candidate does not ask for the whole test inventory. */
  predicate Partial(plan: Plan, inventory: set<string>) {
    |inventory| <= 1 || SelectedFiles(plan) != inventory
  }

  /** The plan after the hints, taken in order; a hint that would select everything is dropped. */
  function Enriched(floor: Plan, hints: seq<Hint>, inventory: set<string>): Plan {
    if hints == [] then floor
    else
      var current := Enriched(floor, hints[..|hints| - 1], inventory);
      var hint := hints[|hints| - 1];
      if hint.Some? && Partial(Merge(current, hint.value), inventory) then Merge(current, hint.value) else current
  }

  ghost predicate NativeHints(hints: seq<Hint>) {
    forall h :: h in hints && h.Some? ==> Native(h.value)
  }

  method EnrichImpact(floor: Plan, hints: seq<Hint>, inventory: set<string>)
    returns (current: Plan, admissions: seq<Admission>)
    requires Native(floor) && NativeHints(hints)
    ensures current == Enriched(floor, hints, inventory)
    ensures AdditiveFloor(floor, current) && Native(current)
    // the floor check never refuses a candidate: only a failed selection or a full inventory does
    ensures |admissions| == |hints|
    ensures forall i :: 0 <= i < |hints| ==>
              (admissions[i] == Admitted <==>
                 hints[i].Some? && Partial(Merge(Enriched(floor, hints[..i], inventory), hints[i].value), inventory))
  {
    hide Merge, LaneFloor, Partial, AdditiveFloor, Native, Enriched;
    EnrichedNone(floor, inventory);
    current := floor;
    admissions := [];
    FloorOrder(floor, floor, floor);
    for i := 0 to |hints|
      invariant current == Enriched(floor, hints[..i], inventory)
      invariant AdditiveFloor(floor, current) && Native(current) && |admissions| == i
      invariant forall j :: 0 <= j < i ==>
                  (admissions[j] == Admitted <==>
                     hints[j].Some?
                     && Partial(Merge(Enriched(floor, hints[..j], inventory), hints[j].value), inventory))
    {
      assert hints[i] in hints;
      EnrichedStep(floor, hints, i, inventory);
      if hints[i].None? {
        admissions := admissions + [Rejected];
        continue;
      }
      var candidate := Merge(current, hints[i].value);
      MergeFloor(current, hints[i].value);
      FloorOrder(floor, current, candidate);
      if !Partial(candidate, inventory) {
        admissions := admissions + [Rejected];
        continue;
      }
      var kept := CheckFloor(floor, candidate);
      if !kept {
        admissions := admissions + [Rejected];
        continue;
      }
      current := candidate;
      admissions := admissions + [Admitted];
    }
    assert hints[..|hints|] == hints;
  }

  lemma EnrichedNone(floor: Plan, inventory: set<string>)
    ensures Enriched(floor, [], inventory) == floor
  {
  }

  lemma EnrichedStep(floor: Plan, hints: seq<Hint>, i: nat, inventory: set<string>)
    requires i < |hints|
    ensures var current := Enriched(floor, hints[..i], inventory);
            Enriched(floor, hints[..i + 1], inventory)
            == if hints[i].Some? && Partial(Merge(current, hints[i].value), inventory)
               then Merge(current, hints[i].value) else current
  {
    hide Merge, Partial;
    assert hints[..i + 1][..i] == hints[..i];
  }

  method CheckFloor(floor: Plan, effective: Plan) returns (kept: bool)
    ensures kept <==> AdditiveFloor(floor, effective)
  {
    if !(floor.jobs <= effective.jobs) || !(floor.groups <= effective.groups) { return false; }
    for i := 0 to |LANE_ORDER|
      invariant forall j :: 0 <= j < i && LANE_ORDER[j] in floor.lanes ==>
                  LANE_ORDER[j] in effective.lanes
                      && LaneFloor(floor.lanes[LANE_ORDER[j]], effective.lanes[LANE_ORDER[j]])
    {
      var lane := LANE_ORDER[i];
      if lane in floor.lanes {
        if lane !in effective.lanes { return false; }
        if !LaneFloor(floor.lanes[lane], effective.lanes[lane]) { return false; }
      }
    }
    forall lane | lane in floor.lanes
      ensures lane in effective.lanes && LaneFloor(floor.lanes[lane], effective.lanes[lane])
    {
      var j := LaneIndex(lane);
      assert LANE_ORDER[j] == lane;
    }
    kept := forall edge | edge in floor.edges :: edge in effective.edges;
  }

  /** Any list of hints, in any order, leaves the skip obligations closed. */
  lemma {:induction false} EnrichedClosed(floor: Plan, hints: seq<Hint>, inventory: set<string>, allowlist: seq<Entry>)
    requires PlanClosed(floor, allowlist)
    requires forall h :: h in hints && h.Some? ==> PlanClosed(h.value, allowlist)
    ensures PlanClosed(Enriched(floor, hints, inventory), allowlist)
  {
    hide PlanClosed, Merge, Partial;
    if hints != [] {
      EnrichedClosed(floor, hints[..|hints| - 1], inventory, allowlist);
      var current, hint := Enriched(floor, hints[..|hints| - 1], inventory), hints[|hints| - 1];
      if hint.Some? { MergeClosed(current, hint.value, allowlist); }
    }
  }
}
