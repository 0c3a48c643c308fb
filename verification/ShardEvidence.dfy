/**
 `junit`, `outcomes`, `validate_execution` and `merge_junit` of core_shards.py: the evidence
 of the shards is checked one by one and joined into the evidence of one logical lane.
 */
module ShardEvidence {
  import opened Results
  import opened Sorting
  import opened Scheduler
  import opened ShardPlan
  import Lpt
  import SchedulerFacts

  datatype Status = Passed | Skipped | Failure | Error

  datatype Outcome = Outcome(status: Status, reason: string)

  /** A JUnit testcase; `skipped` carries the skip message. */
  datatype Case = Case(node: string, failure: bool, error: bool, skipped: Option<string>)

  /** A JUnit suite, with its nested suites and the counters it declares. */
  datatype Suite = Suite(
    cases: seq<Case>, suites: seq<Suite>,
    tests: Option<int>, failures: Option<int>, errors: Option<int>, skips: Option<int>)

  /** What one worker leaves in its directory; `index` is absent for the unsharded run. */
  datatype Evidence = Evidence(
    directory: string, purpose: Purpose, complete: bool, index: Option<int>, exitCode: int, failed: bool,
    planDigest: Plan, context: Context, filesMatch: bool,
    collected: seq<string>, selected: seq<string>, started: seq<string>, document: seq<Suite>)

  datatype Merged = Merged(indices: seq<int>, outcomes: map<string, Outcome>, suite: seq<Case>, skipped: nat)

  datatype Refusal = BadDocument | BadExecution | BadPlan | BadDirectories | BadIndex | Overlap | Incomplete
    | OutputExists

  // ----- JUnit documents

  /** `root.iter("testcase")` */
  function CasesOf(document: seq<Suite>): seq<Case> {
    if document == [] then [] else CasesIn(document[0]) + CasesOf(document[1..])
  }

  /** The cases of a suite, at any depth. */
  function CasesIn(suite: Suite): seq<Case> {
    suite.cases + CasesOf(suite.suites)
  }

  /** The suites of a document, at any depth. */
  function SuitesOf(document: seq<Suite>): seq<Suite> {
    if document == [] then [] else [document[0]] + SuitesOf(document[0].suites) + SuitesOf(document[1..])
  }

  function Kinds(case_: Case): nat {
    (if case_.failure then 1 else 0) + (if case_.error then 1 else 0) + (if case_.skipped.Some? then 1 else 0)
  }

  predicate IsFailure(c: Case) { c.failure }

  predicate IsError(c: Case) { c.error }

  predicate IsSkip(c: Case) { c.skipped.Some? }

  predicate Declares(counter: Option<int>, observed: nat) {
    counter.Some? ==> counter.value == observed
  }

  predicate CountersAgree(suite: Suite) {
    && Declares(suite.tests, |CasesIn(suite)|)
    && Declares(suite.failures, CountIf(CasesIn(suite), IsFailure))
    && Declares(suite.errors, CountIf(CasesIn(suite), IsError))
    && Declares(suite.skips, CountIf(CasesIn(suite), IsSkip))
  }

  ghost predicate DistinctNodes(cases: seq<Case>) {
    forall i, j :: 0 <= i < j < |cases| ==> cases[i].node != cases[j].node
  }

  /** `junit(path)` returns normally. */
  ghost predicate WellFormed(document: seq<Suite>, rules: Rules) {
    && CasesOf(document) != [] && DistinctNodes(CasesOf(document))
    && (forall c :: c in CasesOf(document) ==> ValidCase(c, rules))
    && (forall s :: s in SuitesOf(document) ==> CountersAgree(s))
  }

  /** The map holds each case under its node and nothing else. */
  ghost predicate Indexes(cases: map<string, Case>, listed: seq<Case>) {
    && (forall c :: c in listed ==> c.node in cases && cases[c.node] == c)
    && (forall node :: node in cases ==> cases[node] in listed && cases[node].node == node)
  }

  predicate ValidCase(c: Case, rules: Rules) {
    CoreNode(c.node, rules) && Kinds(c) <= 1
  }

  method JUnit(document: seq<Suite>, rules: Rules) returns (r: Result<map<string, Case>, Refusal>)
    ensures r.Ok? <==> WellFormed(document, rules)
    ensures r.Ok? ==> Indexes(r.value, CasesOf(document))
  {
    hide CountersAgree, ValidCase, CasesOf, SuitesOf;
    r := IndexCases(CasesOf(document), rules);
    if r.Err? { return; }
    var suites := SuitesOf(document);
    for i := 0 to |suites|
      invariant forall s :: s in suites[..i] ==> CountersAgree(s)
    {
      if !CountersAgree(suites[i]) { return Err(BadDocument); }
    }
  }

  method IndexCases(cases: seq<Case>, rules: Rules) returns (r: Result<map<string, Case>, Refusal>)
    ensures r.Ok? <==> cases != [] && DistinctNodes(cases) && forall c :: c in cases ==> ValidCase(c, rules)
    ensures r.Ok? ==> Indexes(r.value, cases)
  {
    hide ValidCase;
    var result: map<string, Case> := map[];
    for i := 0 to |cases|
      invariant Indexes(result, cases[..i]) && DistinctNodes(cases[..i])
      invariant forall c :: c in cases[..i] ==> ValidCase(c, rules)
    {
      var c := cases[i];
      assert cases[..i + 1] == cases[..i] + [c] && c in cases;
      if c.node in result {
        assert result[c.node] in cases[..i];
        return Err(BadDocument);
      }
      if !ValidCase(c, rules) { return Err(BadDocument); }
      result := result[c.node := c];
    }
    assert cases[..|cases|] == cases;
    assert cases != [] ==> cases[0] in cases && cases[0].node in result;
    if result == map[] { return Err(BadDocument); }
    r := Ok(result);
  }

  function OutcomeOf(c: Case): Outcome {
    Outcome(if c.failure then Failure else if c.error then Error else if c.skipped.Some? then Skipped else Passed,
            if c.skipped.Some? then c.skipped.value else "")
  }

  function Outcomes(cases: map<string, Case>): map<string, Outcome> {
    map node | node in cases :: OutcomeOf(cases[node])
  }

  ghost function CaseNodes(document: seq<Suite>): set<string> {
    set c | c in CasesOf(document) :: c.node
  }

  // ----- one execution

  predicate Compatible(expected: Context, observed: Context) {
    expected.(runnerImage := observed.runnerImage) == observed
  }

  /** The nodes planned for one shard, or for the unsharded run; `value["shards"][index]` counts
      a negative index from the end. */
  function Expected(value: Plan, index: Option<int>): seq<string> {
    if index.None? then value.inventory
    else if 0 <= index.value < |value.shards| then value.shards[index.value].nodes
    else if -|value.shards| <= index.value < 0 then value.shards[|value.shards| + index.value].nodes
    else []
  }

  /** The indices that do not raise; qualification names a planned shard. */
  predicate Indexable(value: Plan, index: Option<int>, purpose: Purpose) {
    && (purpose == Qualification ==> index.Some? && 0 <= index.value)
    && (index.Some? ==> -value.count <= index.value < value.count)
  }

  ghost predicate Clean(document: seq<Suite>) {
    forall c :: c in CasesOf(document) ==> OutcomeOf(c).status in {Passed, Skipped}
  }

  /** `validate_execution` accepts this directory as shard `index` of the plan. */
  ghost predicate Accepted(value: Plan, e: Evidence, index: Option<int>, purpose: Purpose, rules: Rules) {
    && ValidPlan(value, purpose, rules)
    && Indexable(value, index, purpose)
    && e.purpose == purpose && e.complete && e.index == index && e.exitCode == 0 && !e.failed
    && e.planDigest == value && rules.context(e.context) && Compatible(value.context, e.context) && e.filesMatch
    && e.collected == value.inventory
    && e.selected == Expected(value, index)
    && multiset(e.started) == multiset(Expected(value, index))
    && WellFormed(e.document, rules)
    && CaseNodes(e.document) == Elements(Expected(value, index))
    && Clean(e.document)
  }

  method ValidateExecution(value: Plan, e: Evidence, index: Option<int>, purpose: Purpose, rules: Rules)
    returns (r: Result<Evidence, Refusal>)
    ensures r.Ok? <==> Accepted(value, e, index, purpose, rules)
    ensures r.Ok? ==> r.value == e
  {
    hide ValidPlan, WellFormed, Leq, Expected, Elements, CoreNode, Compatible, Clean, CaseNodes, Indexes, OutcomeOf;
    var checked := ValidatePlan(value, purpose, rules);
    if checked.Err? { return Err(BadPlan); }
    if !Indexable(value, index, purpose) { return Err(BadIndex); }
    if e.purpose != purpose || !e.complete || e.index != index || e.exitCode != 0 || e.failed {
      return Err(BadExecution);
    }
    if e.planDigest != value || !rules.context(e.context) || !Compatible(value.context, e.context) || !e.filesMatch {
      return Err(BadExecution);
    }
    var expected := Expected(value, index);
    if e.collected != value.inventory || e.selected != expected { return Err(BadExecution); }
    if multiset(e.started) != multiset(expected) { return Err(BadExecution); }
    var cases := JUnit(e.document, rules);
    if cases.Err? { return Err(BadDocument); }
    IndexedNodes(cases.value, e.document);
    if cases.value.Keys != Elements(expected) { return Err(BadDocument); }
    var outcomes := Outcomes(cases.value);
    if exists node | node in outcomes :: outcomes[node].status !in {Passed, Skipped} { return Err(BadExecution); }
    r := Ok(e);
  }

  lemma IndexedNodes(cases: map<string, Case>, document: seq<Suite>)
    requires Indexes(cases, CasesOf(document))
    ensures cases.Keys == CaseNodes(document)
    ensures Clean(document) <==> forall node :: node in cases ==> Outcomes(cases)[node].status in {Passed, Skipped}
  {
  }

  // ----- the merge

  predicate DistinctDirectories(directories: seq<Evidence>) {
    |set e | e in directories :: e.directory| == |directories|
  }

  ghost predicate PlannedIndices(value: Plan, directories: seq<Evidence>) {
    && (forall k :: 0 <= k < |directories| ==>
         directories[k].index.Some? && 0 <= directories[k].index.value < value.count)
    && (forall j, k :: 0 <= j < k < |directories| ==> directories[j].index != directories[k].index)
  }

  /**
   What `merge_junit` accepts.  Its two remaining checks, that no node is reported twice and
   that every node is reported, are absent here: the contract of `MergeJUnit` proves that
   they never refuse what the others let through.
   */
  ghost predicate Mergeable(value: Plan, directories: seq<Evidence>, purpose: Purpose, rules: Rules) {
    && ValidPlan(value, purpose, rules)
    && |directories| == value.count && DistinctDirectories(directories)
    && PlannedIndices(value, directories)
    && forall k :: 0 <= k < |directories| ==> Accepted(value, directories[k], directories[k].index, purpose, rules)
  }

  ghost predicate Reports(d: Evidence, c: Case) {
    c in CasesOf(d.document)
  }

  /** Every reported case is in the map, under its node. */
  ghost predicate Includes(cases: map<string, Case>, directories: seq<Evidence>) {
    forall d, c :: d in directories && Reports(d, c) ==> c.node in cases && cases[c.node] == c
  }

  ghost predicate Keyed(cases: map<string, Case>) {
    forall node :: node in cases ==> cases[node].node == node
  }

  ghost predicate Joined(cases: map<string, Case>, directories: seq<Evidence>) {
    && Includes(cases, directories) && Keyed(cases)
    && (forall node :: node in cases ==> exists d :: d in directories && Reports(d, cases[node]))
  }

  lemma NothingJoined()
    ensures Joined(map[], [])
  {
  }

  /** The lane evidence agrees with every shard's own report, case by case, in inventory order. */
  ghost predicate MergedFrom(merged: Merged, value: Plan, directories: seq<Evidence>) {
    && merged.outcomes.Keys == Elements(value.inventory)
    && (forall d, c :: d in directories && Reports(d, c) ==>
          c.node in merged.outcomes && merged.outcomes[c.node] == OutcomeOf(c))
    && |merged.indices| == |directories|
    && (forall k :: 0 <= k < |directories| ==> directories[k].index == Some(merged.indices[k]))
    && |merged.suite| == |value.inventory|
    && (forall k :: 0 <= k < |merged.suite| ==>
          && merged.suite[k].node == value.inventory[k] && value.inventory[k] in merged.outcomes
          && OutcomeOf(merged.suite[k]) == merged.outcomes[value.inventory[k]])
    && merged.skipped == CountIf(merged.suite, IsSkip)
  }

  /** `taken` says that the output path already exists. */
  method MergeJUnit(value: Plan, directories: seq<Evidence>, taken: bool, purpose: Purpose, rules: Rules)
    returns (r: Result<Merged, Refusal>)
    ensures r.Ok? <==> Mergeable(value, directories, purpose, rules) && !taken
    ensures r.Ok? ==> MergedFrom(r.value, value, directories)
  {
    hide *;
    NothingJoined();
    var checked := ValidatePlan(value, purpose, rules);
    if checked.Err? {
      MergeableParts(value, directories, purpose, rules);
      return Err(BadPlan);
    }
    if |directories| != value.count || !DistinctDirectories(directories) {
      MergeableParts(value, directories, purpose, rules);
      return Err(BadDirectories);
    }
    NothingSoFar(value, purpose, rules);
    var cases: map<string, Case> := map[];
    var indices: seq<int> := [];
    for k := 0 to |directories|
      invariant |indices| == k && forall j :: 0 <= j < k ==> directories[j].index == Some(indices[j])
      invariant MergeableSoFar(value, directories[..k], purpose, rules)
      invariant Joined(cases, directories[..k])
    {
      var directory := directories[k];
      ghost var done := directories[..k];
      assert directories[..k + 1] == done + [directory];
      if directory.index.None? || !(0 <= directory.index.value < value.count) || directory.index.value in indices {
        IndexRefused(value, directories, k, indices, purpose, rules);
        return Err(BadIndex);
      }
      var receipt := ValidateExecution(value, directory, directory.index, purpose, rules);
      if receipt.Err? {
        MergeableParts(value, directories, purpose, rules);
        return Err(receipt.error);
      }
      SoFarStep(value, done, directory, indices, purpose, rules);
      AcceptedDocument(value, directory, purpose, rules);
      indices := indices + [directory.index.value];
      var current := JUnit(directory.document, rules);
      NoOverlap(value, done, directory, cases, current.value, purpose, rules);
      if cases.Keys * current.value.Keys != {} { return Err(Overlap); }
      JoinStep(cases, done, directory, current.value);
      cases := cases + current.value;
    }
    assert directories[..|directories|] == directories;
    CoversInventory(value, directories, cases, purpose, rules);
    if cases.Keys != Elements(value.inventory) { return Err(Incomplete); }
    if taken { return Err(OutputExists); }
    r := Ok(LaneEvidence(indices, cases));
    MergeableParts(value, directories, purpose, rules);
    InventorySorted(value, purpose, rules);
    JoinedIsMerged(value, directories, indices, cases);
  }

  lemma NothingSoFar(value: Plan, purpose: Purpose, rules: Rules)
    requires ValidPlan(value, purpose, rules)
    ensures MergeableSoFar(value, [], purpose, rules)
  {
    hide ValidPlan;
  }

  lemma SoFarStep(value: Plan, done: seq<Evidence>, d: Evidence, indices: seq<int>, purpose: Purpose, rules: Rules)
    requires MergeableSoFar(value, done, purpose, rules) && Accepted(value, d, d.index, purpose, rules)
    requires |indices| == |done| && forall j :: 0 <= j < |done| ==> done[j].index == Some(indices[j])
    requires d.index.Some? && 0 <= d.index.value < value.count && d.index.value !in indices
    ensures MergeableSoFar(value, done + [d], purpose, rules)
  {
    hide ValidPlan, Accepted;
  }

  lemma IndexRefused(value: Plan, directories: seq<Evidence>, k: nat, indices: seq<int>, purpose: Purpose, rules: Rules)
    requires k < |directories| && |indices| == k && forall j :: 0 <= j < k ==> directories[j].index == Some(indices[j])
    requires directories[k].index.None? || !(0 <= directories[k].index.value < value.count)
              || directories[k].index.value in indices
    ensures !Mergeable(value, directories, purpose, rules)
  {
    hide ValidPlan, Accepted;
  }

  lemma MergeableParts(value: Plan, directories: seq<Evidence>, purpose: Purpose, rules: Rules)
    ensures Mergeable(value, directories, purpose, rules) <==>
              MergeableSoFar(value, directories, purpose, rules) && |directories| == value.count
                  && DistinctDirectories(directories)
    ensures Mergeable(value, directories, purpose, rules) ==>
              forall k :: 0 <= k < |directories| ==>
                  Accepted(value, directories[k], directories[k].index, purpose, rules)
    ensures MergeableSoFar(value, directories, purpose, rules) ==> ValidPlan(value, purpose, rules)
  {
    hide ValidPlan, Accepted, DistinctDirectories;
  }

  /** The record written for the lane: sorted cases, their counters and outcomes. */
  function LaneEvidence(indices: seq<int>, cases: map<string, Case>): Merged {
    var names := Sorted(cases.Keys);
    assert forall k :: 0 <= k < |names| ==> names[k] in Elements(names);
    var suite := seq(|names|, k requires 0 <= k < |names| => cases[names[k]]);
    Merged(indices, Outcomes(cases), suite, CountIf(suite, IsSkip))
  }

  lemma JoinedIsMerged(value: Plan, directories: seq<Evidence>, indices: seq<int>, cases: map<string, Case>)
    requires Joined(cases, directories) && value.inventory == Sorted(cases.Keys)
    requires |indices| == |directories| && forall j :: 0 <= j < |indices| ==> directories[j].index == Some(indices[j])
    ensures MergedFrom(LaneEvidence(indices, cases), value, directories)
  {
    hide Joined, Leq, Ascending, CountIf, CasesOf, OutcomeOf, LaneEvidence, Sorted, SortSet;
    JoinedParts(cases, directories);
    SuiteLists(indices, cases);
    forall k | 0 <= k < |value.inventory| ensures value.inventory[k] in cases {
      assert value.inventory[k] in Elements(value.inventory);
    }
  }

  lemma JoinedParts(cases: map<string, Case>, directories: seq<Evidence>)
    requires Joined(cases, directories)
    ensures Includes(cases, directories) && Keyed(cases)
  {
  }

  lemma SuiteLists(indices: seq<int>, cases: map<string, Case>)
    ensures var names, merged := Sorted(cases.Keys), LaneEvidence(indices, cases);
            && merged.indices == indices && merged.outcomes == Outcomes(cases)
            && |merged.suite| == |names| && (forall k :: 0 <= k < |names| ==> names[k] in cases)
            && (forall k :: 0 <= k < |names| ==> merged.suite[k] == cases[names[k]])
            && merged.skipped == CountIf(merged.suite, IsSkip)
  {
  }

  /** The part of `Mergeable` that holds after each directory. */
  ghost predicate MergeableSoFar(value: Plan, directories: seq<Evidence>, purpose: Purpose, rules: Rules) {
    && ValidPlan(value, purpose, rules)
    && PlannedIndices(value, directories)
    && forall k :: 0 <= k < |directories| ==> Accepted(value, directories[k], directories[k].index, purpose, rules)
  }

  lemma InventorySorted(value: Plan, purpose: Purpose, rules: Rules)
    requires ValidPlan(value, purpose, rules)
    ensures value.inventory == Sorted(Elements(value.inventory))
  {
  }

  lemma AcceptedDocument(value: Plan, d: Evidence, purpose: Purpose, rules: Rules)
    requires Accepted(value, d, d.index, purpose, rules)
    ensures WellFormed(d.document, rules)
  {
    hide ValidPlan;
  }

  /** Two accepted directories with different indices report different nodes. */
  lemma ShardsReportApart(value: Plan, d: Evidence, e: Evidence, purpose: Purpose, rules: Rules, node: string)
    requires d.index.Some? && e.index.Some? && d.index != e.index && 0 <= d.index.value && 0 <= e.index.value
    requires Accepted(value, d, d.index, purpose, rules) && Accepted(value, e, e.index, purpose, rules)
    requires node in CaseNodes(d.document)
    ensures node !in CaseNodes(e.document)
  {
    hide ValidPlan, WellFormed, Parts;
    PlanCovers(value, purpose, rules);
    ReportedByShard(value, d, purpose, rules, node);
    ReportedByShard(value, e, purpose, rules, node);
    SchedulerFacts.NodeInOneShard(value.inventory, value.shards, d.index.value, e.index.value, node);
  }

  lemma NoOverlap(value: Plan, done: seq<Evidence>, d: Evidence, cases: map<string, Case>, current: map<string, Case>,
                  purpose: Purpose, rules: Rules)
    requires MergeableSoFar(value, done + [d], purpose, rules)
    requires Joined(cases, done) && Indexes(current, CasesOf(d.document))
    ensures cases.Keys * current.Keys == {}
  {
    hide Accepted, ValidPlan, WellFormed;
    var all := done + [d];
    assert all[|done|] == d;
    forall node | node in cases && node in current ensures false {
      var other :| other in done && Reports(other, cases[node]);
      var k :| 0 <= k < |done| && done[k] == other;
      assert all[k] == other;
      assert node in CaseNodes(other.document) && node in CaseNodes(d.document);
      ShardsReportApart(value, other, d, purpose, rules, node);
    }
  }

  lemma JoinStep(cases: map<string, Case>, done: seq<Evidence>, d: Evidence, current: map<string, Case>)
    requires Joined(cases, done) && Indexes(current, CasesOf(d.document)) && cases.Keys * current.Keys == {}
    ensures Joined(cases + current, done + [d])
  {
    var all, more := done + [d], cases + current;
    assert forall e :: e in all <==> e in done || e == d;
    forall e, c | e in all && Reports(e, c) ensures c.node in more && more[c.node] == c {
      if e in done {
        assert c.node in cases;
        assert c.node !in cases.Keys * current.Keys;
      }
    }
    forall node | node in more
      ensures more[node].node == node && exists e :: e in all && Reports(e, more[node])
    {
      if node in current {
        assert Reports(d, more[node]);
      } else {
        var e :| e in done && Reports(e, cases[node]);
      }
    }
  }

  /** As many distinct planned indices as shards leave no shard out. */
  lemma EveryIndexPresent(value: Plan, directories: seq<Evidence>, i: nat)
    requires |directories| == value.count && PlannedIndices(value, directories) && i < value.count
    ensures exists k :: 0 <= k < |directories| && directories[k].index == Some(i)
  {
    var indices: seq<nat> := seq(|directories|, k requires 0 <= k < |directories| => directories[k].index.value);
    var seen := DistinctIndices(indices);
    var all := Lpt.Range(0, value.count);
    if i !in seen {
      Lpt.SubsetSize(seen, all - {i});
    }
    var k :| 0 <= k < |indices| && indices[k] == i;
  }

  lemma {:induction false} DistinctIndices(indices: seq<nat>) returns (seen: set<nat>)
    requires forall j, k :: 0 <= j < k < |indices| ==> indices[j] != indices[k]
    ensures seen == Elements(indices)
    ensures |seen| == |indices|
  {
    seen := Elements(indices);
    if indices == [] {
      assert seen == {};
    } else {
      var init, last := indices[..|indices| - 1], indices[|indices| - 1];
      var fewer := DistinctIndices(init);
      assert indices == init + [last];
      assert last !in fewer;
      assert seen == fewer + {last};
    }
  }

  lemma CoversInventory(value: Plan, directories: seq<Evidence>, cases: map<string, Case>, purpose: Purpose,
      rules: Rules)
    requires MergeableSoFar(value, directories, purpose, rules) && |directories| == value.count
    requires Joined(cases, directories)
    ensures cases.Keys == Elements(value.inventory)
  {
    hide Accepted, ValidPlan, WellFormed;
    PlanCovers(value, purpose, rules);
    forall node | node in value.inventory ensures node in cases {
      var i :| 0 <= i < |value.shards| && node in value.shards[i].nodes;
      EveryIndexPresent(value, directories, i);
      var k :| 0 <= k < |directories| && directories[k].index == Some(i);
      ReportedByShard(value, directories[k], purpose, rules, node);
      var c :| c in CasesOf(directories[k].document) && c.node == node;
      assert Reports(directories[k], c);
    }
    forall node | node in cases ensures node in value.inventory {
      var d :| d in directories && Reports(d, cases[node]);
      var k :| 0 <= k < |directories| && directories[k] == d;
      ReportedByShard(value, d, purpose, rules, node);
      assert SchedulerFacts.HoldsItsFiles(value.inventory, value.shards[d.index.value]);
    }
  }

  lemma PlanCovers(value: Plan, purpose: Purpose, rules: Rules)
    requires ValidPlan(value, purpose, rules)
    ensures |value.shards| == value.count && value.count > 0
    ensures SchedulerFacts.Disjoint(value.shards) && SchedulerFacts.Covering(value.inventory, value.shards)
    ensures forall i :: 0 <= i < |value.shards| ==> SchedulerFacts.HoldsItsFiles(value.inventory, value.shards[i])
  {
    SchedulerFacts.ExactCover(value.inventory, value.weights, value.count);
  }

  lemma ReportedByShard(value: Plan, d: Evidence, purpose: Purpose, rules: Rules, node: string)
    requires d.index.Some? && 0 <= d.index.value && Accepted(value, d, d.index, purpose, rules)
    ensures 0 <= d.index.value < |value.shards|
    ensures node in value.shards[d.index.value].nodes
       <==> exists c :: c in CasesOf(d.document) && c.node == node
  {
    hide ValidPlan, WellFormed;
    AcceptedIndex(value, d, purpose, rules);
    assert node in CaseNodes(d.document) <==> node in Elements(value.shards[d.index.value].nodes);
  }

  lemma AcceptedIndex(value: Plan, d: Evidence, purpose: Purpose, rules: Rules)
    requires d.index.Some? && 0 <= d.index.value && Accepted(value, d, d.index, purpose, rules)
    ensures 0 <= d.index.value < |value.shards|
  {
    hide WellFormed;
  }
}
