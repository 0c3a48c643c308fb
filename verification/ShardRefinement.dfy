/**
 A sharded run refines an unsharded one: the worker's selection hook, the evidence a worker
 leaves, and the comparison of the merged lane with a single run of the whole inventory.
 */
module ShardRefinement {
  import opened Results
  import opened Sorting
  import opened Scheduler
  import opened ShardPlan
  import opened ShardEvidence
  import SchedulerFacts

  /** `[item for item in items if item.nodeid in chosen]` */
  function Keep(items: seq<string>, chosen: set<string>): seq<string> {
    if items == [] then []
    else (if items[0] in chosen then [items[0]] else []) + Keep(items[1..], chosen)
  }

  function Drop(items: seq<string>, chosen: set<string>): seq<string> {
    if items == [] then []
    else (if items[0] in chosen then [] else [items[0]]) + Drop(items[1..], chosen)
  }

  /** The pytest session whose collected items the worker's plugin replaces in place. */
  class Collection {
    var items: seq<string>
    var deselected: seq<string>

    constructor (items: seq<string>)
      ensures this.items == items && deselected == []
    {
      this.items := items;
      deselected := [];
    }

    /** `pytest_collection_modifyitems` under a plan; returns collected.json and selected.json. */
    method ModifyItems(value: Plan, index: Option<int>, purpose: Purpose, rules: Rules)
      returns (r: Result<(seq<string>, seq<string>), ShardEvidence.Refusal>)
      requires ValidPlan(value, purpose, rules) && (index.Some? ==> 0 <= index.value < |value.shards|)
      modifies this
      ensures r.Ok? <==> multiset(old(items)) == multiset(value.inventory)
      ensures r.Ok? ==> r.value == (value.inventory, Expected(value, index))
      ensures r.Ok? ==> items == Keep(old(items), Elements(Expected(value, index)))
      ensures r.Ok? ==> deselected == old(deselected) + Drop(old(items), Elements(Expected(value, index)))
      ensures r.Err? ==> items == old(items) && deselected == old(deselected)
    {
      hide ValidPlan, Leq, Ascending, ValidInventory, AscendingNames, Keep, Drop, Expected;
      CollectionMatches(value, items, purpose, rules);
      PlanCovers(value, purpose, rules);
      if !ValidInventory(items, rules) { return Err(BadExecution); }
      var collected := Sorted(Elements(items));
      if collected != value.inventory { return Err(BadExecution); }
      var expected := Expected(value, index);
      var chosen := Elements(expected);
      WorkerRunsItsShard(value, index, items, purpose, rules);
      deselected := deselected + Drop(items, chosen);
      items := Keep(items, chosen);
      var selected := Sorted(Elements(items));
      r := Ok((collected, selected));
    }
  }

  /** A collection sorts to the planned inventory exactly when it is a rearrangement of it. */
  lemma CollectionMatches(value: Plan, items: seq<string>, purpose: Purpose, rules: Rules)
    requires ValidPlan(value, purpose, rules)
    ensures ValidInventory(items, rules) && Sorted(Elements(items)) == value.inventory
       <==> multiset(items) == multiset(value.inventory)
  {
    hide ValidPlan, Leq, Ascending;
    InventoryFacts(value, purpose, rules);
    SameInventory(value.inventory, items, rules);
  }

  lemma InventoryFacts(value: Plan, purpose: Purpose, rules: Rules)
    requires ValidPlan(value, purpose, rules)
    ensures ValidInventory(value.inventory, rules) && AscendingNames(value.inventory)
  {
    hide Partitionable, Parts, ValidMembership, Leq;
  }

  lemma SameInventory(inventory: seq<string>, items: seq<string>, rules: Rules)
    requires ValidInventory(inventory, rules) && AscendingNames(inventory)
    ensures ValidInventory(items, rules) && Sorted(Elements(items)) == inventory
       <==> multiset(items) == multiset(inventory)
  {
    hide Leq, CoreNode, Ascending;
    var s, t := Elements(items), Elements(inventory);
    DistinctMultiset(inventory);
    if ValidInventory(items, rules) && Sorted(s) == inventory {
      SortedTwice(s);
      DistinctMultiset(items);
      assert t == s;
    }
    if multiset(items) == multiset(inventory) {
      SameMembers(items, inventory);
      assert forall x :: x in items <==> x in multiset(items);
      assert forall x :: x in inventory <==> x in multiset(inventory);
    }
  }

  lemma {:induction false} KeepCounts(items: seq<string>, chosen: set<string>)
    ensures forall x :: multiset(Keep(items, chosen))[x] == if x in chosen then multiset(items)[x] else 0
  {
    if items != [] {
      var rest := items[1..];
      KeepCounts(rest, chosen);
      assert items == [items[0]] + rest;
      assert multiset(items) == multiset{items[0]} + multiset(rest);
    }
  }

  /** Selecting loses no item: what a worker does not keep it reports as deselected. */
  lemma {:induction false} KeepAndDrop(items: seq<string>, chosen: set<string>)
    ensures multiset(Keep(items, chosen)) + multiset(Drop(items, chosen)) == multiset(items)
  {
    if items != [] {
      KeepAndDrop(items[1..], chosen);
      assert items == [items[0]] + items[1..];
    }
  }

  /** What the plan expects of one worker is an ascending part of the inventory. */
  lemma ExpectedPart(value: Plan, index: Option<int>, purpose: Purpose, rules: Rules)
    requires ValidPlan(value, purpose, rules) && (index.Some? ==> 0 <= index.value < |value.shards|)
    ensures Ascending(Expected(value, index), Leq)
    ensures forall node :: node in Expected(value, index) ==> node in value.inventory
    ensures Expected(value, index) == Sorted(Elements(Expected(value, index)))
    ensures multiset(Expected(value, index)) == multiset(Elements(Expected(value, index)))
    ensures multiset(value.inventory) == multiset(Elements(value.inventory))
    ensures Elements(Expected(value, index)) != {}
  {
    hide Leq, ValidPlan;
    InventorySorted(value, purpose, rules);
    InventoryDistinct(value, purpose, rules);
    PlanCovers(value, purpose, rules);
    var expected := Expected(value, index);
    if index.Some? {
      assert SchedulerFacts.HoldsItsFiles(value.inventory, value.shards[index.value]);
      ShardNotEmpty(value, index.value, purpose, rules);
    }
    AscendingMultiset(expected);
    LeqTotalOn(Elements(expected));
    AscendingUnique(expected, Sorted(Elements(expected)), Leq);
    assert expected[0] in Elements(expected);
  }

  lemma ShardNotEmpty(value: Plan, i: nat, purpose: Purpose, rules: Rules)
    requires ValidPlan(value, purpose, rules) && i < |value.shards|
    ensures value.shards[i].nodes != []
  {
    SchedulerFacts.NoEmptyShard(value.inventory, value.weights, value.count, i);
  }

  lemma InventoryDistinct(value: Plan, purpose: Purpose, rules: Rules)
    requires ValidPlan(value, purpose, rules)
    ensures value.inventory != [] && multiset(value.inventory) == multiset(Elements(value.inventory))
    ensures forall node :: node in value.inventory ==> CoreNode(node, rules)
  {
    hide Leq, CoreNode, Parts, Partitionable, ValidMembership;
    DistinctMultiset(value.inventory);
  }

  lemma {:induction false} AscendingMultiset(s: seq<string>)
    requires Ascending(s, Leq)
    ensures multiset(s) == multiset(Elements(s))
  {
    hide Leq;
    if s == [] {
      assert Elements(s) == {};
    } else {
      var init, last := s[..|s| - 1], s[|s| - 1];
      AscendingMultiset(init);
      assert s == init + [last];
      assert last !in init;
      assert Elements(s) == Elements(init) + {last};
    }
  }

  /** Whatever order pytest collects in, a worker keeps exactly its shard's nodes. */
  lemma WorkerRunsItsShard(value: Plan, index: Option<int>, items: seq<string>, purpose: Purpose, rules: Rules)
    requires ValidPlan(value, purpose, rules) && (index.Some? ==> 0 <= index.value < |value.shards|)
    requires multiset(items) == multiset(value.inventory)
    ensures var run := Keep(items, Elements(Expected(value, index)));
            && multiset(run) == multiset(Expected(value, index))
            && Elements(run) == Elements(Expected(value, index))
            && Sorted(Elements(run)) == Expected(value, index)
  {
    hide Leq, ValidPlan, Ascending, Expected, Keep;
    var expected := Expected(value, index);
    ExpectedPart(value, index, purpose, rules);
    KeptIsExpected(items, value.inventory, expected);
  }

  lemma KeptIsExpected(items: seq<string>, inventory: seq<string>, expected: seq<string>)
    requires multiset(items) == multiset(inventory) == multiset(Elements(inventory))
    requires multiset(expected) == multiset(Elements(expected))
    requires forall node :: node in expected ==> node in inventory
    ensures multiset(Keep(items, Elements(expected))) == multiset(expected)
    ensures Elements(Keep(items, Elements(expected))) == Elements(expected)
  {
    hide Leq;
    var chosen := Elements(expected);
    var run := Keep(items, chosen);
    KeepCounts(items, chosen);
    forall x ensures multiset(run)[x] == multiset(chosen)[x] {
      if x in chosen { assert x in Elements(inventory); }
    }
    assert multiset(run) == multiset(chosen);
    SameMembers(run, expected);
  }

  // ----- the evidence of a worker whose tests behave as `report` says

  /** Every test reports itself under its own name; what it reports is left open. */
  ghost predicate Named(report: string -> Case) {
    forall node :: report(node).node == node
  }

  predicate Passing(c: Case) {
    !c.failure && !c.error
  }

  ghost predicate AllPass(nodes: seq<string>, report: string -> Case) {
    forall node :: node in nodes ==> Passing(report(node))
  }

  function Document(run: seq<string>, report: string -> Case): seq<Suite> {
    [Suite(seq(|run|, k requires 0 <= k < |run| => report(run[k])), [], None, None, None, None)]
  }

  /** The statement counts of one worker, and the coverage plug-in's own comparison of such counts
      with 87 percent, which may round. */
  datatype Totals = Totals(covered: nat, statements: nat, enough: (nat, nat) -> bool)

  predicate Reached(totals: Totals) {
    totals.enough(totals.covered, totals.statements)
  }

  /** The profile of the lane measures coverage. */
  predicate Measured(context: Context) {
    context.lane == UBUNTU_LANE
  }

  /** `--cov-fail-under` is 87 for the unsharded run of a measured lane, and 0 for its shards. */
  predicate Enforced(value: Plan, index: Option<int>) {
    index.None? && Measured(value.context)
  }

  /** pytest exits with 0 when every selected test passed or was skipped and an enforced coverage
      threshold was reached, and with 1 otherwise. */
  function ExitCode(run: seq<string>, report: string -> Case, enforced: bool, totals: Totals): int {
    if (forall node | node in run :: Passing(report(node))) && (enforced ==> Reached(totals)) then 0 else 1
  }

  function WorkerEvidence(value: Plan, index: Option<int>, items: seq<string>, report: string -> Case, totals: Totals,
                          directory: string, image: string): Evidence
  {
    var run := Keep(items, set node | node in Expected(value, index));
    var exitCode := ExitCode(run, report, Enforced(value, index), totals);
    Evidence(directory, value.purpose, true, index, exitCode, false, value,
             value.context.(runnerImage := image), true, Sorted(Elements(items)), Sorted(Elements(run)), run,
             Document(run, report))
  }

  /** The verifier accepts what a worker leaves, on any hosted image its context allows, exactly
      when none of its tests failed and the coverage threshold, if it is enforced, was reached; the
      report lists each of them as it behaved. */
  lemma WorkerAccepted(value: Plan, index: Option<int>, items: seq<string>, report: string -> Case, totals: Totals,
                       directory: string, image: string, rules: Rules)
    requires ValidPlan(value, value.purpose, rules) && (index.Some? ==> 0 <= index.value < |value.shards|)
    requires value.purpose == Qualification ==> index.Some?
    requires multiset(items) == multiset(value.inventory) && Named(report)
    requires rules.context(value.context.(runnerImage := image))
    ensures var e := WorkerEvidence(value, index, items, report, totals, directory, image);
            && (Accepted(value, e, index, value.purpose, rules)
                <==> AllPass(Expected(value, index), report) && (Enforced(value, index) ==> Reached(totals)))
            && (forall c :: c in CasesOf(e.document) ==> c == report(c.node))
            && CaseNodes(e.document) == Elements(Expected(value, index))
  {
    hide Leq, ValidPlan, WellFormed, Clean, Keep, Ascending, CaseNodes, CasesOf, CoreNode, Document, AllPass;
    hide Expected, Sorted, ExitCode, Named, Enforced, Reached;
    var run := Keep(items, Elements(Expected(value, index)));
    WorkerRunsItsShard(value, index, items, value.purpose, rules);
    CollectedSorts(value, items, rules);
    RunDocument(value, index, run, report, rules);
    ExitCodeTells(run, Expected(value, index), report, Enforced(value, index), totals);
  }

  lemma ExitCodeTells(run: seq<string>, expected: seq<string>, report: string -> Case, enforced: bool, totals: Totals)
    requires Elements(run) == Elements(expected)
    ensures ExitCode(run, report, enforced, totals) == 0 <==> AllPass(run, report) && (enforced ==> Reached(totals))
    ensures AllPass(run, report) <==> AllPass(expected, report)
  {
    assert forall node :: node in run <==> node in Elements(run);
    assert forall node :: node in expected <==> node in Elements(expected);
  }

  lemma RunDocument(value: Plan, index: Option<int>, run: seq<string>, report: string -> Case, rules: Rules)
    requires ValidPlan(value, value.purpose, rules) && (index.Some? ==> 0 <= index.value < |value.shards|)
    requires multiset(run) == multiset(Expected(value, index)) && Elements(run) == Elements(Expected(value, index))
    requires Named(report)
    ensures index.Some? ==> index.value < value.count
    ensures var document := Document(run, report);
            && (AllPass(run, report) ==> WellFormed(document, rules) && Clean(document))
            && CaseNodes(document) == Elements(Expected(value, index))
            && forall c :: c in CasesOf(document) ==> c == report(c.node)
  {
    hide Leq, ValidPlan, WellFormed, Clean, Ascending, CaseNodes, CasesOf, CoreNode, Document;
    PlanCovers(value, value.purpose, rules);
    ExpectedPart(value, index, value.purpose, rules);
    InventoryDistinct(value, value.purpose, rules);
    forall node | node in run ensures CoreNode(node, rules) {
      assert node in Elements(run);
    }
    DistinctRun(run, Expected(value, index));
    DocumentOf(run, report, rules);
  }

  lemma CollectedSorts(value: Plan, items: seq<string>, rules: Rules)
    requires ValidPlan(value, value.purpose, rules) && multiset(items) == multiset(value.inventory)
    ensures Sorted(Elements(items)) == value.inventory
  {
    hide ValidPlan;
    CollectionMatches(value, items, value.purpose, rules);
  }

  lemma DistinctRun(run: seq<string>, expected: seq<string>)
    requires multiset(run) == multiset(expected) == multiset(Elements(expected))
    requires Elements(expected) != {}
    ensures run != []
    ensures forall j, k :: 0 <= j < k < |run| ==> run[j] != run[k]
  {
    assert |run| == |multiset(run)| == |Elements(expected)|;
    forall j, k | 0 <= j < k < |run| ensures run[j] != run[k] {
      assert run == run[..k] + run[k..];
      assert run[j] in multiset(run[..k]) && run[k] in multiset(run[k..]);
      assert multiset(run)[run[k]] <= 1;
    }
  }

  lemma DocumentOf(run: seq<string>, report: string -> Case, rules: Rules)
    requires run != [] && Named(report)
    requires forall j, k :: 0 <= j < k < |run| ==> run[j] != run[k]
    requires forall node :: node in run ==> CoreNode(node, rules)
    ensures var document := Document(run, report);
            && (AllPass(run, report) ==> WellFormed(document, rules) && Clean(document))
            && CaseNodes(document) == Elements(run)
            && forall c :: c in CasesOf(document) ==> c == report(c.node)
  {
    hide CoreNode;
    var cases := seq(|run|, k requires 0 <= k < |run| => report(run[k]));
    var document := [Suite(cases, [], None, None, None, None)];
    assert document[1..] == [] && CasesOf(document[1..]) == [];
    assert CasesIn(document[0]) == cases + CasesOf([]) == cases;
    assert CasesOf(document) == cases + [] == cases;
    assert SuitesOf(document) == document by { assert SuitesOf([]) == []; }
    assert cases[0] in cases;
    forall c | c in cases
      ensures c == report(c.node) && c.node in run
      ensures Passing(c) ==> ValidCase(c, rules) && OutcomeOf(c).status in {Passed, Skipped}
    {
      var k :| 0 <= k < |run| && cases[k] == c;
    }
    forall node | node in run ensures node in CaseNodes(document) {
      var k :| 0 <= k < |run| && run[k] == node;
      assert cases[k] in cases;
    }
    assert CaseNodes(document) == Elements(run);
  }

  ghost predicate WorkerWith(d: Evidence, value: Plan, items: seq<string>, image: string, totals: Totals,
      report: string -> Case, rules: Rules)
  {
    && (d.index.Some? ==> 0 <= d.index.value < |value.shards|)
    && multiset(items) == multiset(value.inventory) && rules.context(value.context.(runnerImage := image))
    && d == WorkerEvidence(value, d.index, items, report, totals, d.directory, image)
  }

  /** The workers of all the shards, listed in any order, each with its own collection order, image
      and coverage. */
  ghost predicate WorkersOf(directories: seq<Evidence>, value: Plan, report: string -> Case, rules: Rules) {
    && |directories| == value.count
    && DistinctDirectories(directories) && PlannedIndices(value, directories)
    && forall d :: d in directories ==> exists items, image, totals ::
         WorkerWith(d, value, items, image, totals, report, rules)
  }

  function LaneOutcomes(value: Plan, report: string -> Case): map<string, Outcome> {
    map node | node in value.inventory :: OutcomeOf(report(node))
  }

  lemma WorkerOfShard(value: Plan, d: Evidence, report: string -> Case, rules: Rules)
    requires ValidPlan(value, value.purpose, rules) && Named(report) && d.index.Some?
    requires exists items, image, totals :: WorkerWith(d, value, items, image, totals, report, rules)
    ensures 0 <= d.index.value < |value.shards|
    ensures Accepted(value, d, d.index, value.purpose, rules) <==> AllPass(value.shards[d.index.value].nodes, report)
    ensures forall c :: Reports(d, c) ==> c == report(c.node)
  {
    hide ValidPlan, Accepted, Leq, WorkerEvidence, CasesOf, AllPass;
    var items, image, totals :| WorkerWith(d, value, items, image, totals, report, rules);
    WorkerAccepted(value, d.index, items, report, totals, d.directory, image, rules);
  }

  /**
   Sharding does not show.  Whatever the tests do, the evidence of all the workers is merged, in
   whatever order their directories are listed, exactly when no test of the inventory fails, and
   then the merged outcomes are exactly those of the tests.
   */
  lemma ShardedRefinesUnsharded(value: Plan, directories: seq<Evidence>, report: string -> Case, rules: Rules)
    requires ValidPlan(value, value.purpose, rules) && Named(report)
    requires WorkersOf(directories, value, report, rules)
    ensures Mergeable(value, directories, value.purpose, rules) <==> AllPass(value.inventory, report)
    ensures forall merged :: Mergeable(value, directories, value.purpose, rules)
              && MergedFrom(merged, value, directories)
              ==> merged.outcomes == LaneOutcomes(value, report)
  {
    hide ValidPlan, Accepted, MergedFrom, Leq, WorkerEvidence, WorkerWith, DistinctDirectories, Reports;
    forall d | d in directories
      ensures d.index.Some? && 0 <= d.index.value < |value.shards|
      ensures Accepted(value, d, d.index, value.purpose, rules) <==> AllPass(value.shards[d.index.value].nodes, report)
      ensures forall c :: Reports(d, c) ==> c == report(c.node)
    {
      var k :| 0 <= k < |directories| && directories[k] == d;
      WorkerOfShard(value, d, report, rules);
    }
    AllShardsPass(value, directories, report, rules);
    forall merged | Mergeable(value, directories, value.purpose, rules) && MergedFrom(merged, value, directories)
      ensures merged.outcomes == LaneOutcomes(value, report)
    {
      MergedOutcomesAre(value, directories, merged, report, rules);
    }
  }

  /** All shards pass exactly when the inventory does, since their nodes are the inventory's. */
  lemma AllShardsPass(value: Plan, directories: seq<Evidence>, report: string -> Case, rules: Rules)
    requires ValidPlan(value, value.purpose, rules)
    requires |directories| == value.count && PlannedIndices(value, directories)
    ensures forall k :: 0 <= k < |directories| ==> 0 <= directories[k].index.value < |value.shards|
    ensures (forall k :: 0 <= k < |directories| ==> AllPass(value.shards[directories[k].index.value].nodes, report))
       <==> AllPass(value.inventory, report)
  {
    hide ValidPlan, AllPass;
    PlanCovers(value, value.purpose, rules);
    if AllPass(value.inventory, report) {
      forall k | 0 <= k < |directories| ensures AllPass(value.shards[directories[k].index.value].nodes, report) {
        PartPasses(value.inventory, value.shards[directories[k].index.value], report);
      }
    }
    if forall k :: 0 <= k < |directories| ==> AllPass(value.shards[directories[k].index.value].nodes, report) {
      forall i | 0 <= i < |value.shards| ensures AllPass(value.shards[i].nodes, report) {
        EveryIndexPresent(value, directories, i);
        var k :| 0 <= k < |directories| && directories[k].index == Some(i);
        assert AllPass(value.shards[directories[k].index.value].nodes, report);
      }
      WholePasses(value.inventory, value.shards, report);
    }
  }

  lemma PartPasses(inventory: seq<string>, shard: Shard, report: string -> Case)
    requires SchedulerFacts.HoldsItsFiles(inventory, shard) && AllPass(inventory, report)
    ensures AllPass(shard.nodes, report)
  {
    hide Passing;
  }

  lemma WholePasses(inventory: seq<string>, shards: seq<Shard>, report: string -> Case)
    requires forall node :: node in inventory ==> exists i :: 0 <= i < |shards| && node in shards[i].nodes
    requires forall i :: 0 <= i < |shards| ==> AllPass(shards[i].nodes, report)
    ensures AllPass(inventory, report)
  {
    hide Passing;
  }

  lemma MergedParts(value: Plan, directories: seq<Evidence>, merged: Merged)
    requires MergedFrom(merged, value, directories)
    ensures merged.outcomes.Keys == Elements(value.inventory)
    ensures forall d, c :: d in directories && Reports(d, c) ==>
              c.node in merged.outcomes && merged.outcomes[c.node] == OutcomeOf(c)
  {
  }

  /** Every node of the inventory is reported by some directory of a mergeable listing. */
  lemma Reporter(value: Plan, directories: seq<Evidence>, purpose: Purpose, rules: Rules, node: string)
    returns (d: Evidence, c: Case)
    requires Mergeable(value, directories, purpose, rules) && node in value.inventory
    ensures d in directories && Reports(d, c) && c.node == node
  {
    hide ValidPlan, Accepted, Leq, WellFormed, CasesOf;
    PlanCovers(value, purpose, rules);
    var i :| 0 <= i < |value.shards| && node in value.shards[i].nodes;
    EveryIndexPresent(value, directories, i);
    var k :| 0 <= k < |directories| && directories[k].index == Some(i);
    ReportedByShard(value, directories[k], purpose, rules, node);
    d := directories[k];
    c :| c in CasesOf(d.document) && c.node == node;
  }

  lemma MergedOutcomesAre(value: Plan, directories: seq<Evidence>, merged: Merged, report: string -> Case, rules: Rules)
    requires Mergeable(value, directories, value.purpose, rules) && MergedFrom(merged, value, directories)
    requires forall d, c :: d in directories && Reports(d, c) ==> c == report(c.node)
    ensures merged.outcomes == LaneOutcomes(value, report)
  {
    hide Mergeable, MergedFrom, OutcomeOf, Reports;
    MergedParts(value, directories, merged);
    forall node | node in value.inventory
      ensures node in merged.outcomes && merged.outcomes[node] == OutcomeOf(report(node))
    {
      var d, c := Reporter(value, directories, value.purpose, rules, node);
    }
    assert forall node :: node in merged.outcomes ==> node in Elements(value.inventory);
  }

  /** The unsharded run of the same tests is accepted exactly when the sharded one is merged and, in
      a measured lane, its coverage reaches the threshold; it reports the same outcomes. */
  lemma UnshardedRun(value: Plan, items: seq<string>, report: string -> Case, totals: Totals,
                     directory: string, image: string, directories: seq<Evidence>, rules: Rules)
    requires ValidPlan(value, Shadow, rules) && value.purpose == Shadow && Named(report)
    requires multiset(items) == multiset(value.inventory) && rules.context(value.context.(runnerImage := image))
    requires WorkersOf(directories, value, report, rules)
    ensures var e := WorkerEvidence(value, None, items, report, totals, directory, image);
            && (Accepted(value, e, None, Shadow, rules)
                <==> Mergeable(value, directories, Shadow, rules) && (Measured(value.context) ==> Reached(totals)))
            && CaseNodes(e.document) == LaneOutcomes(value, report).Keys
            && forall c :: Reports(e, c) ==> OutcomeOf(c) == LaneOutcomes(value, report)[c.node]
  {
    hide ValidPlan, Leq, WellFormed, WorkerEvidence, Accepted, Mergeable, WorkersOf, AllPass, Measured, Reached;
    ShardedRefinesUnsharded(value, directories, report, rules);
    WorkerAccepted(value, None, items, report, totals, directory, image, rules);
    var e := WorkerEvidence(value, None, items, report, totals, directory, image);
    assert CaseNodes(e.document) == Elements(value.inventory);
    forall c | Reports(e, c) ensures c.node in value.inventory { assert c.node in CaseNodes(e.document); }
  }

  /** Two listings of the same accepted directories give the same outcomes. */
  lemma OrderIrrelevant(value: Plan, these: seq<Evidence>, those: seq<Evidence>, merged: Merged, merged': Merged,
                        purpose: Purpose, rules: Rules)
    requires Mergeable(value, these, purpose, rules) && (forall d :: d in these <==> d in those)
    requires MergedFrom(merged, value, these) && MergedFrom(merged', value, those)
    ensures merged.outcomes == merged'.outcomes
  {
    hide Mergeable, MergedFrom, OutcomeOf, Reports;
    MergedParts(value, these, merged);
    MergedParts(value, those, merged');
    forall node | node in value.inventory
      ensures node in merged.outcomes && node in merged'.outcomes && merged.outcomes[node] == merged'.outcomes[node]
    {
      var d, c := Reporter(value, these, purpose, rules, node);
    }
    assert forall node :: node in merged.outcomes ==> node in Elements(value.inventory);
    assert forall node :: node in merged'.outcomes ==> node in Elements(value.inventory);
  }
}
