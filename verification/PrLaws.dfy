/**
 What the plans of pr_ci.py mean, told by the tests that they pick: what a selected plan contains,
 what a merge adds, and what the floor check guards.
 */
module PrLaws {
  import opened Results
  import opened Sorting
  import opened NodeIds
  import opened Selectors
  import opened PrPlan
  import opened PrImpact
  import opened PrEndToEnd

  /** The plan runs the node in the lane. */
  ghost predicate Runs(plan: Plan, lane: Lane, node: string) {
    lane in plan.lanes && Picked(Elements(plan.lanes[lane].selectors), node)
  }

  lemma RunsCovers(plan: Plan, lane: Lane, node: string)
    ensures Runs(plan, lane, node) <==> CoversIn(plan, lane, node)
    ensures Runs(plan, lane, node) <==> lane in WorkOf(plan).lanes && Covered(WorkOf(plan).lanes[lane], node)
  {
    hide Covered, Picked;
    if lane in plan.lanes { CoveredPicked(Elements(plan.lanes[lane].selectors), node); }
  }

  // ----- a selected plan

  /** The producer of a skip is planned, and runs the node when it is a lane. */
  ghost predicate Produces(plan: Plan, producer: Producer, node: string) {
    match producer
    case LaneProducer(lane) => Runs(plan, lane, node)
    case JobProducer(job) => job in plan.jobs
  }

  /** The allowlist entry lets the lane skip a node that the plan runs there. */
  ghost predicate Excused(plan: Plan, lane: Lane, entry: Entry) {
    entry.lane == Baseline(lane) && Runs(plan, lane, entry.node)
  }

  /**
   What selection guarantees: every test and job that it started from, for every allowlisted skip of a
   node that the plan runs an edge to a planned producer that runs it, and no edge besides.
   */
  lemma SelectedMeans(plan: Plan, start: Work, allowlist: seq<Entry>)
    requires Selected(plan, start, allowlist)
    ensures start.jobs <= plan.jobs
    ensures forall lane, node :: lane in start.lanes && Picked(start.lanes[lane], node) ==> Runs(plan, lane, node)
    ensures forall lane, entry :: entry in allowlist && Excused(plan, lane, entry) ==>
              exists producer :: Owner(entry.owner) == Some(producer) && Produces(plan, producer, entry.node)
                && Edge(lane, entry.node, entry.reason, entry.owner, producer) in plan.edges
    ensures forall edge :: edge in plan.edges ==>
              exists entry :: entry in allowlist && Excused(plan, edge.lane, entry) && edge.node == entry.node
                && edge.reason == entry.reason && edge.owner == entry.owner && Owner(entry.owner) == Some(edge.producer)
  {
    hide Picked, Covered, FinishedFrom, Runs, Minimal;
    var w :| Closed(w, allowlist) && Kept(w, start, allowlist) && FinishedFrom(plan, w);
    FinishedClosed(plan, w, allowlist);
    FinishedFields(plan, w);
    forall lane, node | lane in start.lanes && Picked(start.lanes[lane], node) ensures Runs(plan, lane, node) {
      StartRuns(plan, w, start, lane, node);
    }
    var v := WorkOf(plan);
    forall lane, entry | entry in allowlist && Excused(plan, lane, entry)
      ensures exists producer :: Owner(entry.owner) == Some(producer) && Produces(plan, producer, entry.node)
                && Edge(lane, entry.node, entry.reason, entry.owner, producer) in plan.edges
    {
      ClosedProduces(plan, allowlist, lane, entry);
    }
    forall edge | edge in plan.edges
      ensures exists entry :: entry in allowlist && Excused(plan, edge.lane, entry) && edge.node == entry.node
                && edge.reason == entry.reason && edge.owner == entry.owner && Owner(entry.owner) == Some(edge.producer)
    {
      var entry :| Justifies(v, edge, entry, allowlist);
      RunsCovers(plan, edge.lane, entry.node);
      assert Excused(plan, edge.lane, entry);
    }
  }

  lemma StartRuns(plan: Plan, w: Work, start: Work, lane: Lane, node: string)
    requires Grows(start, w) && FinishedFrom(plan, w) && lane in start.lanes && Picked(start.lanes[lane], node)
    ensures Runs(plan, lane, node)
  {
    hide Picked, FinishedFrom, Matches;
    CoveredPicked(start.lanes[lane], node);
    assert Covered(w.lanes[lane], node) by {
      var s :| s in start.lanes[lane] && Matches(s, node);
      assert s in w.lanes[lane];
    }
    FinishedCoverage(plan, w, lane, node);
    RunsCovers(plan, lane, node);
  }

  lemma ClosedProduces(plan: Plan, allowlist: seq<Entry>, lane: Lane, entry: Entry)
    requires PlanClosed(plan, allowlist) && entry in allowlist && Excused(plan, lane, entry)
    ensures exists producer :: Owner(entry.owner) == Some(producer) && Produces(plan, producer, entry.node)
              && Edge(lane, entry.node, entry.reason, entry.owner, producer) in plan.edges
  {
    hide Picked, Covered, Runs, EdgesJustified;
    RunsCovers(plan, lane, entry.node);
    assert Triggered(WorkOf(plan).lanes, lane, entry);
    assert Discharged(WorkOf(plan), lane, entry);
    var producer := Owner(entry.owner).value;
    if producer.LaneProducer? { RunsCovers(plan, producer.lane, entry.node); }
    assert Produces(plan, producer, entry.node);
  }

  /** The suite whose skips a lane may have is produced by a lane on the same platform, by that lane
      itself except for the older interpreter. */
  lemma BaselineOnPlatform(lane: Lane)
    ensures exists owner :: Owner(Baseline(lane)) == Some(LaneProducer(owner))
                            && LaneRuntime(owner).platform == LaneRuntime(lane).platform
                            && (owner == lane || (lane == MinimumPython && owner == Ubuntu))
  {
    assert Owner(Baseline(lane)).Some? && Owner(Baseline(lane)).value.LaneProducer?;
  }

  // ----- files, helpers and dependencies

  /** Some selected test is declared in the file, or is the file. */
  ghost predicate HasTestOf(lanes: map<Lane, set<string>>, f: string) {
    exists lane, n :: lane in lanes && n in lanes[lane] && Of(n, f)
  }

  lemma FilesTold(lanes: map<Lane, set<string>>, f: string)
    ensures f in FilesOf(lanes) <==> HasTestOf(lanes, f)
  {
    hide FileName, Of;
    if f in FilesOf(lanes) {
      var lane, n :| lane in lanes && n in lanes[lane] && FileName(n) == f;
      FileIs(n, f);
    }
    if lane, n :| lane in lanes && n in lanes[lane] && Of(n, f) {
      FileIs(n, f);
    }
  }

  /** The files of these tests are exactly these. */
  ghost predicate Spans(lanes: map<Lane, set<string>>, files: set<string>) {
    forall f :: f in files <==> HasTestOf(lanes, f)
  }

  lemma SpansTold(lanes: map<Lane, set<string>>, files: set<string>)
    ensures FilesOf(lanes) == files <==> Spans(lanes, files)
  {
    hide FilesOf, HasTestOf;
    forall f ensures f in FilesOf(lanes) <==> HasTestOf(lanes, f) { FilesTold(lanes, f); }
  }

  /** A candidate is kept from covering the whole inventory, file by file. */
  lemma PartialTold(plan: Plan, inventory: set<string>)
    ensures Partial(plan, inventory) <==> |inventory| <= 1 || !Spans(SelectorsOf(plan), inventory)
  {
    hide Spans, FilesOf;
    SpansTold(SelectorsOf(plan), inventory);
  }

  /** The toolchains lane runs the node, for itself or for a lane that skips it. */
  ghost predicate AtToolchains(w: Work, n: string) {
    || (Toolchains in w.lanes && n in w.lanes[Toolchains])
    || exists edge :: edge in w.edges && edge.producer == LaneProducer(Toolchains) && edge.node == n
  }

  ghost predicate OwnsHelper(policy: Policy, n: string, h: string) {
    exists f :: f in policy.owners && Of(n, f) && h in policy.owners[f]
  }

  /** A lane's helpers are those of its groups and, for the toolchains, those that the files of its
      nodes own. */
  ghost predicate NeedsHelper(w: Work, policy: Policy, lane: Lane, h: string) {
    || (lane in policy.helpers && h in policy.helpers[lane])
    || (lane == Toolchains && exists n :: AtToolchains(w, n) && OwnsHelper(policy, n, h))
  }

  lemma OwnedTold(policy: Policy, nodes: set<string>, h: string)
    ensures h in OwnedHelpers(policy, nodes) <==> exists n :: n in nodes && OwnsHelper(policy, n, h)
  {
    hide FileName, Of;
    if h in OwnedHelpers(policy, nodes) {
      var n :| n in nodes && FileName(n) in policy.owners && h in policy.owners[FileName(n)];
      FileIs(n, FileName(n));
      assert OwnsHelper(policy, n, h);
    }
    if n :| n in nodes && OwnsHelper(policy, n, h) {
      var f :| f in policy.owners && Of(n, f) && h in policy.owners[f];
      FileIs(n, f);
    }
  }

  lemma HelpersTold(w: Work, policy: Policy, lane: Lane, h: string)
    ensures h in LaneHelpers(w, policy, lane) <==> NeedsHelper(w, policy, lane, h)
  {
    hide OwnedHelpers, OwnsHelper;
    if lane == Toolchains {
      var skipped := set edge | edge in w.edges && edge.producer == LaneProducer(lane) :: edge.node;
      OwnedTold(policy, Tests(w.lanes, lane), h);
      OwnedTold(policy, skipped, h);
      assert forall n :: AtToolchains(w, n) <==> n in Tests(w.lanes, lane) || n in skipped;
    }
  }

  /** Documentation alone needs the least; the job of the protocol library needs that library. */
  ghost predicate Dependencies(profile: set<string>, w: Work, groups: set<string>, policy: Policy) {
    if groups == {"docs"} && forall f :: HasTestOf(w.lanes, f) ==> f in policy.docs then profile == {"dev"}
    else if "mcp-sdk" in w.jobs then profile == {"dev", "mcp", "tokens"}
    else profile == {"dev", "tokens"}
  }

  lemma ProfileTold(w: Work, groups: set<string>, policy: Policy)
    ensures Dependencies(ProfileFor(w, groups, policy), w, groups, policy)
  {
    hide FilesOf, HasTestOf;
    forall f ensures f in FilesOf(w.lanes) <==> HasTestOf(w.lanes, f) { FilesTold(w.lanes, f); }
  }

  /** A helper that no lane may have is asked for. */
  ghost predicate AsksUnknown(w: Work, policy: Policy) {
    exists lane, h :: lane in w.lanes && NeedsHelper(w, policy, lane, h)
                      && h !in {"typescript", "go", "rust", "haskell"}
  }

  /** The last refusals of `select` and the data of its lanes, told by the selected tests. */
  lemma ConcludesTold(r: Result<Plan, SelectRefusal>, w: Work, groups: set<string>, policy: Policy,
      inventory: set<string>)
    requires Concludes(r, w, groups, policy, inventory)
    ensures r == Err(UnknownHelper) <==> AsksUnknown(w, policy)
    ensures r == Err(WholeInventory) <==> !AsksUnknown(w, policy) && |inventory| > 1 && Spans(w.lanes, inventory)
    ensures r.Ok? ==> forall lane :: lane in r.value.lanes ==>
              && Dependencies(r.value.lanes[lane].profile, w, groups, policy)
              && forall h :: h in r.value.lanes[lane].helpers <==> NeedsHelper(w, policy, lane, h)
  {
    hide FinishedFrom, LaneHelpers, NeedsHelper, Spans, FilesOf, ProfileFor, Dependencies, Native;
    forall lane, h ensures h in LaneHelpers(w, policy, lane) <==> NeedsHelper(w, policy, lane, h) {
      HelpersTold(w, policy, lane, h);
    }
    SpansTold(w.lanes, inventory);
    ProfileTold(w, groups, policy);
  }

  // ----- the floor

  /** What the floor check guards: no job, group, edge, runtime, helper or dependency is lost, and no
      test that the floor runs in a lane is no longer run there. */
  lemma FloorMeans(floor: Plan, effective: Plan)
    ensures AdditiveFloor(floor, effective) <==>
              && floor.jobs <= effective.jobs && floor.groups <= effective.groups
              && (forall edge :: edge in floor.edges ==> edge in effective.edges)
              && forall lane :: lane in floor.lanes ==>
                   && lane in effective.lanes && LaneKept(floor.lanes[lane], effective.lanes[lane])
  {
    hide LaneFloor, LaneKept;
    forall lane | lane in floor.lanes && lane in effective.lanes
      ensures LaneFloor(floor.lanes[lane], effective.lanes[lane])
         <==> LaneKept(floor.lanes[lane], effective.lanes[lane])
    {
      LaneFloorKept(floor.lanes[lane], effective.lanes[lane]);
    }
  }

  ghost predicate LaneKept(a: LanePlan, b: LanePlan) {
    && b.runtime == a.runtime && a.helpers <= b.helpers && a.profile <= b.profile
    && forall node :: Picked(Elements(a.selectors), node) ==> Picked(Elements(b.selectors), node)
  }

  lemma LaneFloorKept(a: LanePlan, b: LanePlan)
    ensures LaneFloor(a, b) <==> LaneKept(a, b)
  {
    hide Matches, Picks;
    if LaneFloor(a, b) {
      forall node | Picked(Elements(a.selectors), node) ensures Picked(Elements(b.selectors), node) {
        var s :| s in Elements(a.selectors) && Picks(s, node);
        var t :| t in b.selectors && Matches(t, s);
        MatchesPicks(s, node);
        MatchesOrder(t, s, node);
        MatchesPicks(t, node);
        assert t in Elements(b.selectors);
      }
    }
    if LaneKept(a, b) {
      forall s | s in a.selectors ensures exists t | t in b.selectors :: Matches(t, s) {
        MatchesOrder(s, s, s);
        MatchesPicks(s, s);
        assert s in Elements(a.selectors) && Picked(Elements(a.selectors), s);
        assert Picked(Elements(b.selectors), s);
        var t :| t in Elements(b.selectors) && Picks(t, s);
        MatchesPicks(t, s);
      }
    }
  }

  // ----- merges

  /** What a plan can have: a test run in a lane, a job, a group, an edge, a helper or a dependency. */
  datatype Item =
    | TestItem(lane: Lane, node: string) | JobItem(job: string) | GroupItem(group: string) | EdgeItem(edge: Edge)
    | HelperItem(lane: Lane, helper: string) | ProfileItem(lane: Lane, extra: string)

  ghost predicate Has(plan: Plan, item: Item) {
    match item
    case TestItem(lane, node) => Runs(plan, lane, node)
    case JobItem(job) => job in plan.jobs
    case GroupItem(group) => group in plan.groups
    case EdgeItem(edge) => edge in plan.edges
    case HelperItem(lane, helper) => lane in plan.lanes && helper in plan.lanes[lane].helpers
    case ProfileItem(lane, extra) => lane in plan.lanes && extra in plan.lanes[lane].profile
  }

  /** A merge has what either part has, and nothing more. */
  lemma MergeMeans(current: Plan, addition: Plan, item: Item)
    ensures Has(Merge(current, addition), item) <==> Has(current, item) || Has(addition, item)
  {
    hide Runs, MergeEdges, CoversIn, Minimal;
    MergedEdges(current.edges, addition.edges);
    if item.TestItem? {
      MergedCoverage(current, addition, item.lane, item.node);
      RunsCovers(Merge(current, addition), item.lane, item.node);
      RunsCovers(current, item.lane, item.node);
      RunsCovers(addition, item.lane, item.node);
    }
  }

  /** Hint i is admitted: it was selected, and with it the plan is not the whole inventory. */
  predicate Admits(floor: Plan, hints: seq<Hint>, inventory: set<string>, i: nat) {
    && i < |hints| && hints[i].Some?
    && Partial(Merge(Enriched(floor, hints[..i], inventory), hints[i].value), inventory)
  }

  ghost predicate Adds(floor: Plan, hints: seq<Hint>, inventory: set<string>, i: nat, item: Item) {
    Admits(floor, hints, inventory, i) && Has(hints[i].value, item)
  }

  /** The effective plan has what the floor has or an admitted hint adds, and nothing more. */
  lemma {:induction false} EnrichedMeans(floor: Plan, hints: seq<Hint>, inventory: set<string>, item: Item)
    ensures Has(Enriched(floor, hints, inventory), item)
       <==> Has(floor, item) || exists i: nat :: Adds(floor, hints, inventory, i, item)
    decreases |hints|
  {
    hide Has, Merge, Partial;
    if hints != [] {
      var n := |hints| - 1;
      var init := hints[..n];
      EnrichedMeans(floor, init, inventory, item);
      forall i: nat ensures Adds(floor, hints, inventory, i, item)
                       <==> Adds(floor, init, inventory, i, item) || (i == n && Adds(floor, hints, inventory, n, item))
      {
        if i < n { assert init[..i] == hints[..i]; }
      }
      assert (exists i: nat :: Adds(floor, hints, inventory, i, item))
        <==> (exists i: nat :: Adds(floor, init, inventory, i, item)) || Adds(floor, hints, inventory, n, item);
      if Admits(floor, hints, inventory, n) {
        MergeMeans(Enriched(floor, init, inventory), hints[n].value, item);
      }
    }
  }
}
