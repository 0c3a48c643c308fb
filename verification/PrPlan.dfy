/**
 The skip-owner closure of pr_ci.py's `select`: which lanes and jobs must run so that every
 skip a selected lane may report is made good by its owner.
 */
module PrPlan {
  import opened Results
  import opened Sorting
  import opened Selectors

  /** The native lanes of a pull-request plan. */
  datatype Lane = Ubuntu | MinimumPython | Windows | Macos | Toolchains

  /** The qualification lanes named by the skip allowlist. */
  datatype Suite =
    | CoreUbuntu | CoreWindows | CoreMacos | SecurityWindows | SecurityMacos | SecurityUbuntu
    | ProductWindows | ProductUbuntu | ToolchainSuite | Mcp311 | Mcp313 | Oci | Unmapped(name: string)

  const MCP_JOB := "mcp-sdk"
  const OCI_JOB := "p0-oci-integration"

  datatype Producer = LaneProducer(lane: Lane) | JobProducer(job: string)

  datatype Entry = Entry(lane: Suite, node: string, reason: string, owner: Suite)

  datatype Edge = Edge(lane: Lane, node: string, reason: string, owner: Suite, producer: Producer)

  function Baseline(lane: Lane): Suite {
    match lane
    case Ubuntu => CoreUbuntu
    case MinimumPython => CoreUbuntu
    case Windows => CoreWindows
    case Macos => CoreMacos
    case Toolchains => ToolchainSuite
  }

  /** `OWNER_LANES.get(...)` */
  function Owner(suite: Suite): Option<Producer> {
    match suite
    case CoreUbuntu => Some(LaneProducer(Ubuntu))
    case CoreWindows => Some(LaneProducer(Windows))
    case CoreMacos => Some(LaneProducer(Macos))
    case SecurityWindows => Some(LaneProducer(Windows))
    case SecurityMacos => Some(LaneProducer(Macos))
    case SecurityUbuntu => Some(LaneProducer(Ubuntu))
    case ProductWindows => Some(LaneProducer(Windows))
    case ProductUbuntu => Some(LaneProducer(Ubuntu))
    case ToolchainSuite => Some(LaneProducer(Toolchains))
    case Mcp311 => Some(JobProducer(MCP_JOB))
    case Mcp313 => Some(JobProducer(MCP_JOB))
    case Oci => Some(JobProducer(OCI_JOB))
    case Unmapped(_) => None
  }

  /** What the closure loop grows. */
  datatype Work = Work(lanes: map<Lane, set<string>>, jobs: set<string>, edges: seq<Edge>)

  function Tests(lanes: map<Lane, set<string>>, lane: Lane): set<string> {
    if lane in lanes then lanes[lane] else {}
  }

  /** The lane may skip the entry's node: some selected test covers it there. */
  predicate Triggered(lanes: map<Lane, set<string>>, lane: Lane, entry: Entry) {
    lane in lanes && entry.lane == Baseline(lane) && Covered(lanes[lane], entry.node)
  }

  function EdgeFor(lane: Lane, entry: Entry, producer: Producer): Edge {
    Edge(lane, entry.node, entry.reason, entry.owner, producer)
  }

  /** The producer of a skip is part of the plan and will itself run the node. */
  predicate OwnerPlanned(lanes: map<Lane, set<string>>, jobs: set<string>, producer: Producer, node: string) {
    match producer
    case LaneProducer(lane) => lane in lanes && Covered(lanes[lane], node)
    case JobProducer(job) => job in jobs
  }

  ghost predicate Discharged(w: Work, lane: Lane, entry: Entry) {
    var owner := Owner(entry.owner);
    owner.Some? && EdgeFor(lane, entry, owner.value) in w.edges
    && OwnerPlanned(w.lanes, w.jobs, owner.value, entry.node)
  }

  /** Every skip that a selected lane may report has its edge and its planned owner. */
  ghost predicate Closed(w: Work, allowlist: seq<Entry>) {
    forall lane, entry :: entry in allowlist && Triggered(w.lanes, lane, entry) ==> Discharged(w, lane, entry)
  }

  /** Every edge of the plan comes from an allowlist entry that the plan triggers. */
  ghost predicate EdgesJustified(w: Work, allowlist: seq<Entry>) {
    forall edge :: edge in w.edges ==> exists entry :: Justifies(w, edge, entry, allowlist)
  }

  ghost predicate Justifies(w: Work, edge: Edge, entry: Entry, allowlist: seq<Entry>) {
    && entry in allowlist && Triggered(w.lanes, edge.lane, entry)
    && Owner(entry.owner) == Some(edge.producer) && edge == EdgeFor(edge.lane, entry, edge.producer)
  }

  /** The tests and jobs of another plan, closed under the same allowlist, that cover these. */
  ghost predicate Above(lanes: map<Lane, set<string>>, jobs: set<string>, w: Work) {
    && w.jobs <= jobs
    && forall lane :: lane in w.lanes ==> CoversSet(Tests(lanes, lane), w.lanes[lane])
  }

  ghost predicate OwnersClosed(lanes: map<Lane, set<string>>, jobs: set<string>, allowlist: seq<Entry>) {
    forall lane, entry :: entry in allowlist && Triggered(lanes, lane, entry) ==>
      Owner(entry.owner).Some? && OwnerPlanned(lanes, jobs, Owner(entry.owner).value, entry.node)
  }

  /** One visit of the inner loop: a triggered entry adds its edge and whatever its owner still misses. */
  function Visit(w: Work, lane: Lane, entry: Entry): (r: Result<Work, Suite>)
  {
    if !Triggered(w.lanes, lane, entry) then Ok(w)
    else if Owner(entry.owner).None? then Err(entry.owner)
    else
      var producer := Owner(entry.owner).value;
      var edge := EdgeFor(lane, entry, producer);
      var edges := if edge in w.edges then w.edges else w.edges + [edge];
      match producer
      case JobProducer(job) => Ok(w.(edges := edges, jobs := w.jobs + {job}))
      case LaneProducer(owner) =>
        var current := Tests(w.lanes, owner);
        Ok(w.(edges := edges,
              lanes := w.lanes[owner := if Covered(current, entry.node) then current else current + {entry.node}]))
  }

  // ----- what a visit keeps

  ghost predicate Grows(w: Work, w': Work) {
    && w.lanes.Keys <= w'.lanes.Keys && w.jobs <= w'.jobs
    && (forall lane :: lane in w.lanes ==> w.lanes[lane] <= w'.lanes[lane])
    && (forall edge :: edge in w.edges ==> edge in w'.edges)
  }

  lemma CoveredGrows(a: set<string>, b: set<string>, node: string)
    requires a <= b && Covered(a, node)
    ensures Covered(b, node)
  {
  }

  lemma VisitGrows(w: Work, lane: Lane, entry: Entry)
    requires Visit(w, lane, entry).Ok?
    ensures Grows(w, Visit(w, lane, entry).value)
    ensures Triggered(w.lanes, lane, entry) ==> Discharged(Visit(w, lane, entry).value, lane, entry)
  {
  }

  lemma JustifiedGrows(w: Work, w': Work, allowlist: seq<Entry>, edge: Edge)
    requires Grows(w, w') && EdgesJustified(w, allowlist) && edge in w.edges
    ensures exists entry :: Justifies(w', edge, entry, allowlist)
  {
    hide Matches;
    var entry :| Justifies(w, edge, entry, allowlist);
    CoveredGrows(w.lanes[edge.lane], w'.lanes[edge.lane], entry.node);
    assert Justifies(w', edge, entry, allowlist);
  }

  lemma VisitJustified(w: Work, lane: Lane, entry: Entry, allowlist: seq<Entry>)
    requires Visit(w, lane, entry).Ok? && EdgesJustified(w, allowlist) && entry in allowlist
    ensures EdgesJustified(Visit(w, lane, entry).value, allowlist)
  {
    hide Matches;
    var w' := Visit(w, lane, entry).value;
    VisitGrows(w, lane, entry);
    forall edge | edge in w'.edges ensures exists e :: Justifies(w', edge, e, allowlist) {
      if edge in w.edges {
        JustifiedGrows(w, w', allowlist, edge);
      } else {
        CoveredGrows(w.lanes[lane], w'.lanes[lane], entry.node);
        assert Justifies(w', edge, entry, allowlist);
      }
    }
  }

  /** A closed plan that covers the work so far covers it after the visit. */
  lemma VisitStaysBelow(w: Work, lane: Lane, entry: Entry, allowlist: seq<Entry>, lanes: map<Lane, set<string>>,
      jobs: set<string>)
    requires Visit(w, lane, entry).Ok? && entry in allowlist
    requires OwnersClosed(lanes, jobs, allowlist) && Above(lanes, jobs, w)
    ensures Above(lanes, jobs, Visit(w, lane, entry).value)
  {
    hide Matches;
    if Triggered(w.lanes, lane, entry) {
      CoversAll(Tests(lanes, lane), w.lanes[lane], entry.node);
      assert Triggered(lanes, lane, entry);
    }
  }

  // ----- termination: the nodes some lane does not cover yet

  const LANE_ORDER := [Ubuntu, MinimumPython, Windows, Macos, Toolchains]

  function Uncovered(lanes: map<Lane, set<string>>, allowlist: seq<Entry>): set<(Lane, string)> {
    set lane, entry | lane in LANE_ORDER && entry in allowlist && !Covered(Tests(lanes, lane), entry.node)
      :: (lane, entry.node)
  }

  lemma UncoveredShrinks(w: Work, w': Work, allowlist: seq<Entry>)
    requires Grows(w, w')
    ensures Uncovered(w'.lanes, allowlist) <= Uncovered(w.lanes, allowlist)
  {
  }

  lemma AddedIsCovered(w: Work, lane: Lane, entry: Entry, allowlist: seq<Entry>)
    requires Visit(w, lane, entry).Ok? && entry in allowlist && Visit(w, lane, entry).value.lanes != w.lanes
    ensures Uncovered(Visit(w, lane, entry).value.lanes, allowlist) < Uncovered(w.lanes, allowlist)
  {
    hide Matches;
    var w' := Visit(w, lane, entry).value;
    VisitGrows(w, lane, entry);
    UncoveredShrinks(w, w', allowlist);
    var owner := Owner(entry.owner).value.lane;
    assert Covered(Tests(w.lanes, owner), entry.node) ==> w'.lanes == w.lanes;
    MatchesOrder(entry.node, entry.node, entry.node);
    assert owner in LANE_ORDER by { assert LANE_ORDER[0] == Ubuntu && LANE_ORDER[1] == MinimumPython
      && LANE_ORDER[2] == Windows && LANE_ORDER[3] == Macos && LANE_ORDER[4] == Toolchains; }
    assert (owner, entry.node) in Uncovered(w.lanes, allowlist);
    assert (owner, entry.node) !in Uncovered(w'.lanes, allowlist);
  }

  // ----- the loop

  /** The least plan, in the covering order, that contains the start and is closed. */
  ghost predicate LeastAbove(w: Work, start: Work, allowlist: seq<Entry>) {
    forall lanes, jobs :: OwnersClosed(lanes, jobs, allowlist) && Above(lanes, jobs, start) ==> Above(lanes, jobs, w)
  }

  ghost predicate Kept(w: Work, start: Work, allowlist: seq<Entry>) {
    Grows(start, w) && EdgesJustified(w, allowlist) && LeastAbove(w, start, allowlist)
  }

  lemma VisitKeeps(w: Work, start: Work, lane: Lane, entry: Entry, allowlist: seq<Entry>)
    requires Kept(w, start, allowlist) && entry in allowlist && Visit(w, lane, entry).Ok?
    ensures Kept(Visit(w, lane, entry).value, start, allowlist)
  {
    hide Visit, Above, OwnersClosed, EdgesJustified;
    var w' := Visit(w, lane, entry).value;
    VisitGrows(w, lane, entry);
    VisitJustified(w, lane, entry, allowlist);
    forall lanes, jobs | OwnersClosed(lanes, jobs, allowlist) && Above(lanes, jobs, start)
      ensures Above(lanes, jobs, w')
    {
      VisitStaysBelow(w, lane, entry, allowlist, lanes, jobs);
    }
  }

  /** The selected skips of these lanes and entries are discharged. */
  ghost predicate Settled(w: Work, lane: Lane, entries: seq<Entry>) {
    forall entry :: entry in entries && Triggered(w.lanes, lane, entry) ==> Discharged(w, lane, entry)
  }

  lemma SettledGrows(w: Work, w': Work, lane: Lane, entries: seq<Entry>)
    requires Grows(w, w') && w'.lanes == w.lanes && Settled(w, lane, entries)
    ensures Settled(w', lane, entries)
  {
  }

  lemma SettleOne(w: Work, lane: Lane, entries: seq<Entry>, entry: Entry)
    requires Settled(w, lane, entries) && Visit(w, lane, entry).Ok?
    requires Visit(w, lane, entry).value.lanes == w.lanes
    ensures Settled(Visit(w, lane, entry).value, lane, entries + [entry])
  {
  }

  /** What one visit, and so any number of them, leaves true between two moments of a round. */
  ghost predicate Round(w: Work, w0: Work, start: Work, allowlist: seq<Entry>, changed: bool) {
    && Kept(w, start, allowlist) && Grows(w0, w)
    && Uncovered(w.lanes, allowlist) <= Uncovered(w0.lanes, allowlist)
    && (if changed then Uncovered(w.lanes, allowlist) < Uncovered(w0.lanes, allowlist) else w.lanes == w0.lanes)
  }

  lemma GrowsTransitive(a: Work, b: Work, c: Work)
    requires Grows(a, b) && Grows(b, c)
    ensures Grows(a, c)
  {
  }

  lemma RoundStep(w: Work, w0: Work, start: Work, lane: Lane, entry: Entry, allowlist: seq<Entry>, changed: bool)
    requires Round(w, w0, start, allowlist, changed) && entry in allowlist && Visit(w, lane, entry).Ok?
    ensures var w' := Visit(w, lane, entry).value;
            Round(w', w0, start, allowlist, changed || w'.lanes != w.lanes)
  {
    hide Visit, Kept, Grows, Uncovered;
    var w' := Visit(w, lane, entry).value;
    VisitKeeps(w, start, lane, entry, allowlist);
    VisitGrows(w, lane, entry);
    GrowsTransitive(w0, w, w');
    UncoveredShrinks(w, w', allowlist);
    if w'.lanes != w.lanes { AddedIsCovered(w, lane, entry, allowlist); }
  }

  ghost predicate UnmappedOwner(owner: Suite, allowlist: seq<Entry>) {
    Owner(owner).None? && exists entry :: entry in allowlist && entry.owner == owner
  }

  /** Some closed plan covers this one. */
  ghost predicate Closable(start: Work, allowlist: seq<Entry>) {
    exists lanes, jobs :: Above(lanes, jobs, start) && OwnersClosed(lanes, jobs, allowlist)
  }

  ghost predicate Stuck(owner: Suite, start: Work, allowlist: seq<Entry>) {
    UnmappedOwner(owner, allowlist) && !Closable(start, allowlist)
  }

  /** An entry without a producer that is triggered here is triggered in every closed plan above. */
  lemma VisitStuck(w: Work, start: Work, lane: Lane, entry: Entry, allowlist: seq<Entry>)
    requires Kept(w, start, allowlist) && entry in allowlist && Visit(w, lane, entry).Err?
    ensures Stuck(Visit(w, lane, entry).error, start, allowlist)
  {
    hide Matches, EdgesJustified, Grows;
    forall lanes, jobs | Above(lanes, jobs, start)
      ensures !OwnersClosed(lanes, jobs, allowlist)
    {
      if Above(lanes, jobs, w) {
        CoversAll(Tests(lanes, lane), w.lanes[lane], entry.node);
        assert Triggered(lanes, lane, entry);
      }
    }
  }

  /** The inner loop: one lane against the whole allowlist. */
  method VisitLane(w1: Work, lane: Lane, ghost w0: Work, ghost start: Work, allowlist: seq<Entry>, changed1: bool)
    returns (r: Result<Work, Suite>, changed: bool)
    requires Round(w1, w0, start, allowlist, changed1)
    ensures r.Err? ==> Stuck(r.error, start, allowlist)
    ensures r.Ok? ==> Round(r.value, w0, start, allowlist, changed) && Grows(w1, r.value)
    ensures r.Ok? && !changed ==> !changed1 && Settled(r.value, lane, allowlist)
  {
    hide Round, Settled, Grows, Kept, Triggered, Stuck;
    var w := w1;
    changed := changed1;
    SettledNone(w, lane);
    GrowsSelf(w);
    for k := 0 to |allowlist|
      invariant Round(w, w0, start, allowlist, changed) && Grows(w1, w)
      invariant !changed ==> !changed1 && Settled(w, lane, allowlist[..k])
    {
      var entry := allowlist[k];
      assert allowlist[..k + 1] == allowlist[..k] + [entry];
      var next := Visit(w, lane, entry);
      if next.Err? {
        RoundKept(w, w0, start, allowlist, changed);
        VisitStuck(w, start, lane, entry, allowlist);
        return next, changed;
      }
      RoundStep(w, w0, start, lane, entry, allowlist, changed);
      VisitGrows(w, lane, entry);
      GrowsTransitive(w1, w, next.value);
      if !changed && next.value.lanes == w.lanes { SettleOne(w, lane, allowlist[..k], entry); }
      changed := changed || next.value.lanes != w.lanes;
      w := next.value;
    }
    assert allowlist[..|allowlist|] == allowlist;
    r := Ok(w);
  }

  lemma RoundKept(w: Work, w0: Work, start: Work, allowlist: seq<Entry>, changed: bool)
    requires Round(w, w0, start, allowlist, changed)
    ensures Kept(w, start, allowlist)
  {
  }

  lemma SettledNone(w: Work, lane: Lane)
    ensures Settled(w, lane, [])
  {
  }

  lemma GrowsSelf(w: Work)
    ensures Grows(w, w)
  {
  }

  lemma UnselectedSettled(w: Work, lane: Lane, allowlist: seq<Entry>)
    requires lane !in w.lanes
    ensures Settled(w, lane, allowlist)
  {
  }

  /** One round over the lanes present when it began and the whole allowlist. */
  method Pass(w0: Work, ghost start: Work, allowlist: seq<Entry>) returns (r: Result<Work, Suite>, changed: bool)
    requires Kept(w0, start, allowlist)
    ensures r.Err? ==> Stuck(r.error, start, allowlist)
    ensures r.Ok? ==> Round(r.value, w0, start, allowlist, changed)
    ensures r.Ok? && !changed ==> Closed(r.value, allowlist)
  {
    hide Settled, Kept, Grows, Triggered, Uncovered, Closed, Stuck;
    var w, snapshot := w0, w0.lanes.Keys;
    changed := false;
    GrowsSelf(w);
    for i := 0 to |LANE_ORDER|
      invariant Round(w, w0, start, allowlist, changed)
      invariant !changed ==> forall j :: 0 <= j < i ==> Settled(w, LANE_ORDER[j], allowlist)
    {
      var lane := LANE_ORDER[i];
      if lane in snapshot {
        ghost var before := w;
        r, changed := VisitLane(w, lane, w0, start, allowlist, changed);
        if r.Err? { return; }
        w := r.value;
        if !changed {
          forall j | 0 <= j < i ensures Settled(w, LANE_ORDER[j], allowlist) {
            SettledGrows(before, w, LANE_ORDER[j], allowlist);
          }
        }
      } else if !changed {
        UnselectedSettled(w, lane, allowlist);
      }
    }
    r := Ok(w);
    if !changed { SettledIsClosed(w, allowlist); }
  }

  lemma SettledIsClosed(w: Work, allowlist: seq<Entry>)
    requires forall j :: 0 <= j < |LANE_ORDER| ==> Settled(w, LANE_ORDER[j], allowlist)
    ensures Closed(w, allowlist)
  {
    hide Triggered, Discharged;
    forall lane, entry | entry in allowlist && Triggered(w.lanes, lane, entry) ensures Discharged(w, lane, entry) {
      var j := LaneIndex(lane);
      assert Settled(w, LANE_ORDER[j], allowlist);
    }
  }

  function LaneIndex(lane: Lane): (j: nat)
    ensures j < |LANE_ORDER| && LANE_ORDER[j] == lane
  {
    match lane
    case Ubuntu => 0
    case MinimumPython => 1
    case Windows => 2
    case Macos => 3
    case Toolchains => 4
  }

  /**
   The skip-owner loop of `select`.  It ends, because every round but the last gives some lane a
   node it did not cover; what it ends with is closed, contains the start, and is the least
   such plan.  It raises, for an allowlist owner that no producer maps to, exactly when no plan
   above the start is closed.
   */
  method CloseSkips(start: Work, allowlist: seq<Entry>) returns (r: Result<Work, Suite>)
    requires start.edges == []
    ensures r.Ok? <==> Closable(start, allowlist)
    ensures r.Ok? ==> Closed(r.value, allowlist) && Kept(r.value, start, allowlist)
    ensures r.Err? ==> UnmappedOwner(r.error, allowlist)
  {
    hide Grows, EdgesJustified, LeastAbove, Closed, Uncovered, UnmappedOwner, Above, OwnersClosed;
    var w := start;
    StartKept(start, allowlist);
    var changed := true;
    while changed
      invariant Kept(w, start, allowlist)
      invariant !changed ==> Closed(w, allowlist)
      decreases Uncovered(w.lanes, allowlist), changed
    {
      r, changed := Pass(w, start, allowlist);
      if r.Err? { return; }
      w := r.value;
    }
    ClosedOwners(w, allowlist);
    GrownIsAbove(w, start);
    r := Ok(w);
  }

  lemma StartKept(start: Work, allowlist: seq<Entry>)
    requires start.edges == []
    ensures Kept(start, start, allowlist)
  {
  }

  // ----- the result does not depend on the order of the visits

  lemma ClosedOwners(w: Work, allowlist: seq<Entry>)
    requires Closed(w, allowlist)
    ensures OwnersClosed(w.lanes, w.jobs, allowlist)
  {
  }

  lemma GrownIsAbove(w: Work, start: Work)
    requires Grows(start, w)
    ensures Above(w.lanes, w.jobs, start)
  {
  }

  /** Two closures of one selection have the same jobs and compact to the same selectors in every lane. */
  lemma ClosureUnique(start: Work, w: Work, w': Work, allowlist: seq<Entry>, lane: Lane)
    requires Closed(w, allowlist) && Kept(w, start, allowlist)
    requires Closed(w', allowlist) && Kept(w', start, allowlist)
    ensures w.jobs == w'.jobs && Minimal(Tests(w.lanes, lane)) == Minimal(Tests(w'.lanes, lane))
  {
    hide Closed, Grows, EdgesJustified;
    ClosedOwners(w, allowlist);
    ClosedOwners(w', allowlist);
    GrownIsAbove(w, start);
    GrownIsAbove(w', start);
    assert Above(w.lanes, w.jobs, w') && Above(w'.lanes, w'.jobs, w);
    var a, b := Tests(w.lanes, lane), Tests(w'.lanes, lane);
    assert CoversSet(a, b) && CoversSet(b, a);
    CompactionUnique(a, b);
  }
}
