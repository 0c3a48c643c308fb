/** What the partition promises: Graham's bound, balance, and an exact cover by whole files. */
module SchedulerFacts {
  import opened Results
  import opened Sorting
  import opened Lpt
  import opened NodeIds
  import opened Scheduler

  /** The total weight of a set of files. */
  ghost function Work(files: set<string>, weights: map<string, int>): int {
    if files == {} then 0 else var f :| f in files; Weight(weights, f) + Work(files - {f}, weights)
  }

  lemma {:induction false} WorkAdds(files: set<string>, f: string, weights: map<string, int>)
    requires f !in files
    ensures Work(files + {f}, weights) == Work(files, weights) + Weight(weights, f)
    decreases |files|
  {
    var all := files + {f};
    var g :| g in all && Work(all, weights) == Weight(weights, g) + Work(all - {g}, weights);
    if g == f {
      assert all - {g} == files;
    } else {
      assert all - {g} == (files - {g}) + {f};
      WorkAdds(files - {g}, f, weights);
      WorkAdds(files - {g}, g, weights);
      assert (files - {g}) + {g} == files;
    }
  }

  lemma {:induction false} LoadIsWork(order: seq<string>, p: seq<nat>, a: seq<nat>, n: nat, i: nat,
      weights: map<string, int>)
    requires n <= |order| == |p| && n <= |a|
    requires forall j, k :: 0 <= j < k < |order| ==> order[j] != order[k]
    requires forall k :: 0 <= k < |order| ==> p[k] == Weight(weights, order[k])
    ensures Load(p, a, n, i) == Work(PlacedOn(order, a, n, i), weights)
  {
    if n == 0 {
      assert PlacedOn(order, a, n, i) == {};
    } else {
      LoadIsWork(order, p, a, n - 1, i, weights);
      var before := PlacedOn(order, a, n - 1, i);
      assert a[..n][..n - 1] == a[..n - 1];
      PlacedOnStep(order, a[..n - 1], a[..n], n - 1, i);
      assert PlacedOn(order, a, n, i) == PlacedOn(order, a[..n], n, i);
      assert before == PlacedOn(order, a[..n - 1], n - 1, i);
      if a[n - 1] == i {
        WorkAdds(before, order[n - 1], weights);
      } else {
        assert PlacedOn(order, a, n, i) == before;
      }
    }
  }

  /** The facts about the listing that every proof below starts from. */
  lemma Setting(weights: map<string, int>, count: nat) returns (order: seq<string>, p: seq<nat>, a: seq<nat>)
    requires count > 0 && PositiveWeights(weights)
    ensures order == Order(weights) && |p| == |a| == |order|
    ensures Elements(order) == weights.Keys && |order| == |weights.Keys|
    ensures forall k :: 0 <= k < |order| ==>
              order[k] in weights && p[k] == weights[order[k]] == Weight(weights, order[k])
    ensures forall j, k :: 0 <= j < k < |order| ==> order[j] != order[k]
    ensures p == Jobs(weights, order) && a == Placement(p, count, |p|)
    ensures Positive(p) && LongestFirst(p) && Greedy(p, a, count)
  {
    hide Order, Placement, HeavierFirst, Greedy;
    order := Order(weights);
    OrderInWeights(weights);
    p := Jobs(weights, order);
    a := Placement(p, count, |p|);
    PlacementGreedy(p, count, |p|);
    forall j, k | 0 <= j <= k < |p| ensures p[k] <= p[j] {
      if j < k { HeavierEarlier(weights, order, j, k); }
    }
  }

  lemma HeavierEarlier(weights: map<string, int>, order: seq<string>, j: nat, k: nat)
    requires j < k < |order| && Ascending(order, HeavierFirst(weights))
    requires order[j] in weights && order[k] in weights
    ensures weights[order[k]] <= weights[order[j]]
  {
    HeavierMeans(weights, order[j], order[k]);
  }

  lemma HeavierMeans(weights: map<string, int>, a: string, b: string)
    ensures HeavierFirst(weights)(a, b) ==> Weight(weights, b) <= Weight(weights, a)
  {
  }

  lemma FilesOfPart(nodes: seq<string>, weights: map<string, int>, count: nat, order: seq<string>, p: seq<nat>,
      a: seq<nat>, i: nat)
    requires count > 0 && PositiveWeights(weights) && i < count && order == Order(weights)
    requires (forall k :: 0 <= k < |order| ==> order[k] in weights) && p == Jobs(weights, order)
              && a == Placement(p, count, |p|)
    ensures Elements(Parts(nodes, weights, count)[i].files) == PlacedOn(order, a, |p|, i)
    ensures Parts(nodes, weights, count)[i].nodes == NodesOf(nodes, PlacedOn(order, a, |p|, i))
    ensures Parts(nodes, weights, count)[i].estimatedMs == Load(p, a, |p|, i)
    ensures Parts(nodes, weights, count)[i].index == i
    ensures Ascending(Parts(nodes, weights, count)[i].files, Leq)
  {
  }

  /** A shard's estimate is the total weight of its files. */
  lemma EstimateIsWork(nodes: seq<string>, weights: map<string, int>, count: nat, i: nat)
    requires count > 0 && PositiveWeights(weights) && i < count
    ensures Parts(nodes, weights, count)[i].estimatedMs
         == Work(Elements(Parts(nodes, weights, count)[i].files), weights)
  {
    var order, p, a := Setting(weights, count);
    FilesOfPart(nodes, weights, count, order, p, a, i);
    LoadIsWork(order, p, a, |p|, i, weights);
  }

  /** The files that an assignment gives to machine j. */
  ghost function AssignedTo(assign: map<string, nat>, files: set<string>, j: nat): set<string> {
    set f | f in files && f in assign && assign[f] == j
  }

  /** x is at most 4/3 - 1/(3m) times y. */
  ghost predicate WithinFactor(m: nat, x: int, y: int) {
    3 * m * x <= (4 * m - 1) * y
  }

  /**
   Graham's bound, for the partition as the planner returns it.  However all the files are
   assigned to `count` shards, some shard of that assignment carries so much work that no
   planned shard exceeds it by more than the factor 4/3 - 1/(3 count).
   */
  lemma ShardBound(nodes: seq<string>, weights: map<string, int>, count: nat, assign: map<string, nat>, i: nat)
    requires Partitionable(nodes, weights, count) && i < count
    requires assign.Keys == Files(nodes) && forall f :: f in assign ==> assign[f] < count
    ensures exists j :: 0 <= j < count && WithinFactor(count, Parts(nodes, weights, count)[i].estimatedMs,
                                                       Work(AssignedTo(assign, Files(nodes), j), weights))
  {
    hide Parts, Load, Makespan, Greedy, Placement, Work, PlacedOn, Order, Jobs, AssignedTo;
    var order, p, a := Setting(weights, count);
    FilesOfPart(nodes, weights, count, order, p, a, i);
    var b := seq(|order|, k requires 0 <= k < |order| => assign[order[k]]);
    LptBound(p, a, b, count);
    MakespanBounds(p, a, |p|, count);
    MakespanBounds(p, b, |p|, count);
    var j :| 0 <= j < count && Load(p, b, |p|, j) == Makespan(p, b, |p|, count);
    LoadIsWork(order, p, b, |p|, j, weights);
    PlacedIsAssigned(order, b, assign, j);
    assert PlacedOn(order, b, |p|, j) == AssignedTo(assign, Files(nodes), j);
    var e := Load(p, a, |p|, i);
    Monotone(3 * count, e, Makespan(p, a, |p|, count));
  }

  lemma PlacedIsAssigned(order: seq<string>, b: seq<nat>, assign: map<string, nat>, j: nat)
    requires Elements(order) == assign.Keys && |b| == |order|
    requires forall k :: 0 <= k < |order| ==> order[k] in assign && b[k] == assign[order[k]]
    ensures PlacedOn(order, b, |order|, j) == AssignedTo(assign, assign.Keys, j)
  {
  }

  /** Two planned shards differ by no more than the heaviest file. */
  lemma ShardsBalanced(nodes: seq<string>, weights: map<string, int>, count: nat, i: nat, j: nat, heaviest: nat)
    requires Partitionable(nodes, weights, count) && i < count && j < count
    requires forall f :: f in weights ==> weights[f] <= heaviest
    ensures Parts(nodes, weights, count)[i].estimatedMs <= Parts(nodes, weights, count)[j].estimatedMs + heaviest
  {
    var order, p, a := Setting(weights, count);
    GreedyBalanced(p, a, count, |p|, i, j, heaviest);
  }

  // ----- exact cover

  lemma {:induction false} NodesOfKeeps(nodes: seq<string>, selected: set<string>)
    ensures forall x ::
              multiset(NodesOf(nodes, selected))[x] == if FileName(x) in selected then multiset(nodes)[x] else 0
    ensures forall x :: x in NodesOf(nodes, selected) <==> x in nodes && FileName(x) in selected
  {
    if nodes != [] {
      NodesOfKeeps(nodes[1..], selected);
      assert nodes == [nodes[0]] + nodes[1..];
    }
  }

  lemma {:induction false} NodesOfAscending(nodes: seq<string>, selected: set<string>)
    requires Ascending(nodes, Leq)
    ensures Ascending(NodesOf(nodes, selected), Leq)
  {
    if nodes != [] {
      NodesOfAscending(nodes[1..], selected);
      NodesOfKeeps(nodes[1..], selected);
      var rest := NodesOf(nodes[1..], selected);
      forall x | x in rest ensures Leq(nodes[0], x) && nodes[0] != x {
        var k :| 1 <= k < |nodes| && nodes[k] == x;
      }
    }
  }

  /** No shard is empty: each has a file, a node and a positive estimate. */
  lemma NoEmptyShard(nodes: seq<string>, weights: map<string, int>, count: nat, i: nat)
    requires Partitionable(nodes, weights, count) && i < count
    ensures var shard := Parts(nodes, weights, count)[i];
            shard.files != [] && shard.nodes != [] && shard.estimatedMs > 0
  {
    var order, p, a := Setting(weights, count);
    FilesOfPart(nodes, weights, count, order, p, a, i);
    var firsts := FirstMachines(p, a, count, 0, count);
    var all := Range(0, count);
    assert firsts <= all;
    if i !in firsts {
      SubsetSize(firsts, all - {i});
    }
    var k :| 0 <= k < count && a[k] == i;
    assert order[k] in PlacedOn(order, a, |p|, i);
    LoadIncludes(p, a, |p|, k);
    var node :| node in nodes && FileName(node) == order[k];
    NodesOfKeeps(nodes, PlacedOn(order, a, |p|, i));
  }

  /** Shard i holds exactly the nodes of its files, as often and in the order the list has them. */
  ghost predicate HoldsItsFiles(nodes: seq<string>, shard: Shard) {
    && (forall node :: node in shard.nodes <==> node in nodes && FileName(node) in shard.files)
    && (forall node :: node in shard.nodes ==> multiset(shard.nodes)[node] == multiset(nodes)[node])
    && (Ascending(nodes, Leq) ==> Ascending(shard.nodes, Leq))
  }

  ghost predicate Disjoint(parts: seq<Shard>) {
    forall i, j, f :: 0 <= i < j < |parts| && f in parts[i].files ==> f !in parts[j].files
  }

  ghost predicate Covering(nodes: seq<string>, parts: seq<Shard>) {
    forall node :: node in nodes ==> exists i :: 0 <= i < |parts| && node in parts[i].nodes
  }

  /**
   The shards cut the inventory exactly: each node is in exactly one of them, the one that
   owns its file, as often as it is in the inventory and in the inventory's order.
   */
  lemma ExactCover(nodes: seq<string>, weights: map<string, int>, count: nat)
    requires Partitionable(nodes, weights, count)
    ensures var parts := Parts(nodes, weights, count);
            && |parts| == count && Disjoint(parts) && Covering(nodes, parts)
            && forall i :: 0 <= i < count ==> HoldsItsFiles(nodes, parts[i])
  {
    forall i | 0 <= i < count ensures HoldsItsFiles(nodes, Parts(nodes, weights, count)[i]) {
      PartHoldsItsFiles(nodes, weights, count, i);
    }
    PartsDisjoint(nodes, weights, count);
    PartsCover(nodes, weights, count);
  }

  /** So no node runs in two shards. */
  lemma NodeInOneShard(nodes: seq<string>, parts: seq<Shard>, i: nat, j: nat, node: string)
    requires Disjoint(parts) && i < |parts| && j < |parts| && i != j
    requires HoldsItsFiles(nodes, parts[i]) && HoldsItsFiles(nodes, parts[j])
    requires node in parts[i].nodes
    ensures node !in parts[j].nodes
  {
  }

  lemma PartHoldsItsFiles(nodes: seq<string>, weights: map<string, int>, count: nat, i: nat)
    requires Partitionable(nodes, weights, count) && i < count
    ensures HoldsItsFiles(nodes, Parts(nodes, weights, count)[i])
  {
    var order, p, a := Setting(weights, count);
    FilesOfPart(nodes, weights, count, order, p, a, i);
    var files, placed := Parts(nodes, weights, count)[i].files, PlacedOn(order, a, |p|, i);
    assert forall f :: f in files <==> f in placed by {
      assert forall f :: f in files <==> f in Elements(files);
    }
    NodesOfKeeps(nodes, placed);
    if Ascending(nodes, Leq) { NodesOfAscending(nodes, placed); }
  }

  lemma PartsDisjoint(nodes: seq<string>, weights: map<string, int>, count: nat)
    requires Partitionable(nodes, weights, count)
    ensures Disjoint(Parts(nodes, weights, count))
  {
    var parts := Parts(nodes, weights, count);
    var order, p, a := Setting(weights, count);
    forall i, j, f | 0 <= i < j < count && f in parts[i].files ensures f !in parts[j].files {
      FilesOfPart(nodes, weights, count, order, p, a, i);
      FilesOfPart(nodes, weights, count, order, p, a, j);
      assert f in Elements(parts[i].files);
      PlacedApart(order, a, |p|, i, j, f);
      assert f !in Elements(parts[j].files);
    }
  }

  lemma PartsCover(nodes: seq<string>, weights: map<string, int>, count: nat)
    requires Partitionable(nodes, weights, count)
    ensures Covering(nodes, Parts(nodes, weights, count))
  {
    var parts := Parts(nodes, weights, count);
    var order, p, a := Setting(weights, count);
    forall node | node in nodes ensures exists i :: 0 <= i < count && node in parts[i].nodes {
      assert FileName(node) in Elements(order);
      var k :| 0 <= k < |order| && order[k] == FileName(node);
      FilesOfPart(nodes, weights, count, order, p, a, a[k]);
      assert FileName(node) in PlacedOn(order, a, |p|, a[k]);
      NodesOfKeeps(nodes, PlacedOn(order, a, |p|, a[k]));
      assert node in parts[a[k]].nodes;
    }
  }

  lemma PlacedApart(order: seq<string>, a: seq<nat>, n: nat, i: nat, j: nat, f: string)
    requires n <= |order| && n <= |a| && i != j && f in PlacedOn(order, a, n, i)
    requires forall j, k :: 0 <= j < k < |order| ==> order[j] != order[k]
    ensures f !in PlacedOn(order, a, n, j)
  {
  }

  // ----- the same, told without the scheduler's own functions

  /** The tests of one file stay together, whatever else the inventory holds. */
  lemma FilesStayTogether(nodes: seq<string>, weights: map<string, int>, count: nat, i: nat, f: string, s: string,
      t: string)
    requires Partitionable(nodes, weights, count) && i < count && Plain(f)
    requires f + "::" + s in Parts(nodes, weights, count)[i].nodes && f + "::" + t in nodes
    ensures f + "::" + t in Parts(nodes, weights, count)[i].nodes && f in Parts(nodes, weights, count)[i].files
  {
    hide Parts, HoldsItsFiles, Files;
    PartHoldsItsFiles(nodes, weights, count, i);
    Together(nodes, Parts(nodes, weights, count)[i], f, s, t);
  }

  lemma Together(nodes: seq<string>, shard: Shard, f: string, s: string, t: string)
    requires HoldsItsFiles(nodes, shard) && Plain(f) && f + "::" + s in shard.nodes && f + "::" + t in nodes
    ensures f + "::" + t in shard.nodes && f in shard.files
  {
    hide FileName, Leq;
    FileOfTest(f, s);
    FileOfTest(f, t);
  }

  /** Weights are demanded for exactly the files that stand before a separator, or are listed themselves. */
  lemma WeighedFiles(nodes: seq<string>, weights: map<string, int>, count: nat, f: string)
    requires Partitionable(nodes, weights, count)
    ensures f in weights <==> (f in nodes && !HasSeparator(f)) || (Plain(f) && exists t :: f + "::" + t in nodes)
  {
    if f in weights {
      var node :| node in nodes && FileName(node) == f;
      FileOrTest(node);
    }
    if f in nodes && !HasSeparator(f) {
      FileOrTest(f);
      assert FileName(f) in weights;
    }
    if Plain(f) && exists t :: f + "::" + t in nodes {
      var t :| f + "::" + t in nodes;
      FileOfTest(f, t);
      assert FileName(f + "::" + t) in weights;
    }
  }

  /** Files are taken heaviest first, and by name among files of one weight. */
  lemma OrderTaken(weights: map<string, int>, j: nat, k: nat)
    requires j < k < |Order(weights)|
    ensures var f, g := Order(weights)[j], Order(weights)[k];
            && f in weights && g in weights
            && (weights[f] > weights[g] || (weights[f] == weights[g] && Leq(f, g) && f != g))
  {
    hide Leq;
    var order := Order(weights);
    assert order[j] in Elements(order) && order[k] in Elements(order);
    TakenBefore(weights, order[j], order[k]);
  }

  lemma TakenBefore(weights: map<string, int>, f: string, g: string)
    requires f in weights && g in weights && HeavierFirst(weights)(f, g)
    ensures weights[f] > weights[g] || (weights[f] == weights[g] && Leq(f, g))
  {
  }

  /** Each goes to the first of the shards that are least loaded then. */
  lemma FirstLeast(p: seq<nat>, m: nat, k: nat, i: nat)
    requires m > 0 && k < |p| && i < m
    ensures var a := Placement(p, m, |p|);
            && Load(p, a, k, a[k]) <= Load(p, a, k, i) && (i < a[k] ==> Load(p, a, k, a[k]) < Load(p, a, k, i))
  {
    hide Load, Greedy;
    PlacementGreedy(p, m, |p|);
    var a, before := Placement(p, m, |p|), Placement(p, m, k);
    assert before == a[..k] && Placement(p, m, k + 1) == a[..k + 1];
    assert a[k] == LeastLoaded(p, before, k, m);
    LoadPrefix(p, before, a, k, i);
    LoadPrefix(p, before, a, k, a[k]);
  }
}
