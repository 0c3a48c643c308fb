/**
 A sharded lane that measures coverage against its unsharded run: the threshold that pytest
 enforces on the unsharded run, and the one that the combined coverage of the shards has to reach.
 */
module CoverageRefinement {
  import opened Results
  import opened Sorting
  import opened ShardPlan
  import opened ShardEvidence
  import opened ShardRefinement
  import C = CoverageVerdict
  import Coverage

  /** The unsharded run left readable coverage of the same frozen statements, and its totals count
      those of them that its own database records. */
  ghost predicate Counts(single: C.Shard, sources: Coverage.Sources, statements: Coverage.Inventory, totals: Totals) {
    && C.ShardOk(single, sources, statements)
    && totals.covered == |C.RanStatements([single], sources, statements)|
    && totals.statements == |C.FrozenStatements(statements)|
  }

  /** Some shard executed every frozen statement that the unsharded run did. */
  ghost predicate NothingLost(single: C.Shard, shards: seq<C.Shard>, sources: Coverage.Sources,
      statements: Coverage.Inventory)
  {
    C.RanStatements([single], sources, statements) <= C.RanStatements(shards, sources, statements)
  }

  ghost predicate NothingAdded(single: C.Shard, shards: seq<C.Shard>, sources: Coverage.Sources,
      statements: Coverage.Inventory)
  {
    C.RanStatements(shards, sources, statements) <= C.RanStatements([single], sources, statements)
  }

  /** `compare` looks for lost lines in the two receipts; that finds every lost statement. */
  lemma LostLines(single: C.Shard, shards: seq<C.Shard>, joined: C.Shard, sources: Coverage.Sources, xml: C.Report)
    requires C.ShardOk(single, sources, joined.receipt.statements) && C.Agrees(shards, joined, sources, xml)
    requires forall name :: name in single.receipt.lines ==>
               C.Listed(single.receipt.lines, name) <= C.Listed(joined.receipt.lines, name)
    ensures NothingLost(single, shards, sources, joined.receipt.statements)
  {
    hide C.ShardOk, C.Observed, C.ReportAgrees, C.Ran;
    var statements := joined.receipt.statements;
    forall name, n | n in C.Listed(single.receipt.lines, name)
      ensures exists shard :: shard in shards && C.Observed(shard, sources, name, n)
    {
      C.RanIsObserved(shards, sources, statements, name, n);
      JoinedIsRan(shards, joined, sources, xml, name);
    }
    forall name, n | C.Observed(single, sources, name, n)
      ensures exists shard :: shard in shards && C.Observed(shard, sources, name, n)
    {
      C.ListedIsObserved(single, sources, statements, name, n);
    }
    RanMonotone([single], shards, sources, statements);
  }

  lemma JoinedIsRan(shards: seq<C.Shard>, joined: C.Shard, sources: Coverage.Sources, xml: C.Report,
      name: Coverage.Path)
    requires C.Agrees(shards, joined, sources, xml)
    ensures C.Listed(joined.receipt.lines, name) <= C.Ran(shards, name)
  {
    hide C.ShardOk, C.ReportAgrees, C.Ran;
  }

  lemma RanMonotone(some: seq<C.Shard>, shards: seq<C.Shard>, sources: Coverage.Sources, statements: Coverage.Inventory)
    requires forall shard, name, n :: shard in some && C.Observed(shard, sources, name, n) ==>
               exists other :: other in shards && C.Observed(other, sources, name, n)
    ensures C.RanStatements(some, sources, statements) <= C.RanStatements(shards, sources, statements)
  {
    hide C.Observed;
  }

  lemma SizeMonotone<T>(a: set<T>, b: set<T>)
    requires a <= b
    ensures |a| <= |b|
  {
    assert b == a + (b - a);
  }

  /**
   The two gates of a measured lane, whatever the tests do and cover.  The unsharded run is accepted
   exactly when the shards are merged and the plug-in finds the run's counts enough.  When the shards
   lost no statement and the run's counts reach 87 percent, the merged shards pass the coverage gate
   too.  When they also added none, the two gates agree exactly if the shards are not merged or the
   plug-in's comparison of the run's counts does not round across the threshold.
   */
  lemma CoverageGates(value: Plan, items: seq<string>, report: string -> Case, totals: Totals, directory: string,
      image: string, directories: seq<Evidence>, rules: Rules,
      single: C.Shard, shards: seq<C.Shard>, joined: C.Shard, sources: Coverage.Sources, xml: C.Report)
    requires ValidPlan(value, Shadow, rules) && value.purpose == Shadow && Measured(value.context) && Named(report)
    requires multiset(items) == multiset(value.inventory) && rules.context(value.context.(runnerImage := image))
    requires WorkersOf(directories, value, report, rules)
    requires C.Agrees(shards, joined, sources, xml) && Counts(single, sources, joined.receipt.statements, totals)
    requires NothingLost(single, shards, sources, joined.receipt.statements)
    ensures var merged := Mergeable(value, directories, Shadow, rules);
            var e := WorkerEvidence(value, None, items, report, totals, directory, image);
            var unsharded := Accepted(value, e, None, Shadow, rules);
            var sharded := merged && C.Accepts(shards, joined, sources, xml);
            && (unsharded <==> merged && Reached(totals))
            && (merged && C.Reaches(totals.covered, totals.statements) ==> sharded)
            && (NothingAdded(single, shards, sources, joined.receipt.statements) ==>
                  ((unsharded <==> sharded)
                   <==> (merged ==> (Reached(totals) <==> C.Reaches(totals.covered, totals.statements)))))
  {
    hide ValidPlan, WorkersOf, Mergeable, Accepted, WorkerEvidence, Reached, Measured;
    hide C.Agrees, C.ShardOk, C.RanStatements, C.FrozenStatements;
    UnshardedRun(value, items, report, totals, directory, image, directories, rules);
    C.Verdict(shards, joined, sources, xml);
    var statements := joined.receipt.statements;
    var before, after := C.RanStatements([single], sources, statements), C.RanStatements(shards, sources, statements);
    SizeMonotone(before, after);
    if NothingAdded(single, shards, sources, statements) {
      assert before == after;
    }
  }
}
