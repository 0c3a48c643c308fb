/** `partition` of core_shards.py: whole test files, heaviest first, onto 2-4 shards. */
module Scheduler {
  import opened Results
  import opened Sorting
  import opened Lpt
  import opened NodeIds

  datatype Refusal = InvalidCount | EmptyShards | WeightsDoNotCoverFiles | InvalidWeight

  datatype Shard = Shard(index: nat, files: seq<string>, nodes: seq<string>, estimatedMs: nat)

  function Files(nodes: seq<string>): set<string> {
    set node | node in nodes :: FileName(node)
  }

  function Weight(weights: map<string, int>, file: string): int {
    if file in weights then weights[file] else 0
  }

  /** The sort key `(-weights[name], name)`. */
  function HeavierFirst(weights: map<string, int>): (string, string) -> bool {
    (a, b) => Weight(weights, b) < Weight(weights, a) || (Weight(weights, a) == Weight(weights, b) && Leq(a, b))
  }

  lemma HeavierFirstTotal(weights: map<string, int>, s: set<string>)
    ensures TotalOn(s, HeavierFirst(weights))
  {
    LeqTotalOn(s);
  }

  predicate PositiveWeights(weights: map<string, int>) {
    forall file :: file in weights ==> weights[file] > 0
  }

  /** What `partition` demands of its arguments. */
  ghost predicate Partitionable(nodes: seq<string>, weights: map<string, int>, count: int) {
    && 2 <= count <= 4 && count <= |Files(nodes)|
    && weights.Keys == Files(nodes)
    && PositiveWeights(weights)
  }

  function Order(weights: map<string, int>): (order: seq<string>)
    ensures Elements(order) == weights.Keys && |order| == |weights.Keys|
    ensures Ascending(order, HeavierFirst(weights))
  {
    HeavierFirstTotal(weights, weights.Keys);
    SortSet(weights.Keys, HeavierFirst(weights))
  }

  function Jobs(weights: map<string, int>, order: seq<string>): (p: seq<nat>)
    requires PositiveWeights(weights) && forall k :: 0 <= k < |order| ==> order[k] in weights
    ensures |p| == |order| && forall k :: 0 <= k < |p| ==> p[k] == weights[order[k]]
  {
    seq(|order|, k requires 0 <= k < |order| => weights[order[k]])
  }

  /** The first of the least-loaded machines. */
  function LeastLoaded(p: seq<nat>, a: seq<nat>, n: nat, m: nat): (i: nat)
    requires m > 0 && n <= |p| && n <= |a|
    ensures i < m && forall i' :: 0 <= i' < m ==> Load(p, a, n, i) <= Load(p, a, n, i')
    ensures forall i' :: 0 <= i' < i ==> Load(p, a, n, i) < Load(p, a, n, i')
  {
    if m == 1 then 0
    else
      var i := LeastLoaded(p, a, n, m - 1);
      if Load(p, a, n, m - 1) < Load(p, a, n, i) then m - 1 else i
  }

  /** The machine of each of the first n jobs. */
  function Placement(p: seq<nat>, m: nat, n: nat): (a: seq<nat>)
    requires m > 0 && n <= |p|
    ensures |a| == n
  {
    if n == 0 then []
    else
      var a := Placement(p, m, n - 1);
      a + [LeastLoaded(p, a, n - 1, m)]
  }

  lemma {:induction false} LoadPrefix(p: seq<nat>, a: seq<nat>, b: seq<nat>, n: nat, i: nat)
    requires n <= |p| && n <= |a| && n <= |b| && a[..n] == b[..n]
    ensures Load(p, a, n, i) == Load(p, b, n, i)
  {
    if n > 0 {
      assert a[..n - 1] == a[..n][..n - 1] == b[..n - 1];
      assert a[n - 1] == a[..n][n - 1] == b[n - 1];
      LoadPrefix(p, a, b, n - 1, i);
    }
  }

  lemma {:induction false} PlacementGreedy(p: seq<nat>, m: nat, n: nat)
    requires m > 0 && n <= |p|
    ensures Greedy(p, Placement(p, m, n), m)
    ensures forall k :: 0 <= k <= n ==> Placement(p, m, k) == Placement(p, m, n)[..k]
  {
    var a := Placement(p, m, n);
    if n > 0 {
      PlacementGreedy(p, m, n - 1);
      var b := Placement(p, m, n - 1);
      assert b == a[..n - 1];
      forall k | 0 <= k <= n ensures Placement(p, m, k) == a[..k] {
        if k < n { assert a[..k] == b[..k]; }
      }
      forall k | 0 <= k < n ensures LeastAt(p, a, m, k) {
        assert a[..k] == b[..k];
        forall i ensures Load(p, a, k, i) == Load(p, b, k, i) { LoadPrefix(p, a, b, k, i); }
        if k < n - 1 { assert a[k] == b[k] && LeastAt(p, b, m, k); }
      }
    }
  }

  function PlacedOn(order: seq<string>, a: seq<nat>, n: nat, i: nat): set<string>
    requires n <= |order| && n <= |a|
  {
    set k | 0 <= k < n && a[k] == i :: order[k]
  }

  /** `[node for node in nodes if file_name(node) in selected]` */
  function NodesOf(nodes: seq<string>, selected: set<string>): seq<string> {
    if nodes == [] then []
    else (if FileName(nodes[0]) in selected then [nodes[0]] else []) + NodesOf(nodes[1..], selected)
  }

  /** The deterministic partition, described job by job. */
  function Parts(nodes: seq<string>, weights: map<string, int>, count: nat): (r: seq<Shard>)
    requires count > 0 && PositiveWeights(weights)
    ensures |r| == count
  {
    var order := Order(weights);
    OrderInWeights(weights);
    var p := Jobs(weights, order);
    var a := Placement(p, count, |p|);
    seq(count, i requires 0 <= i < count =>
      Shard(i, Sorted(PlacedOn(order, a, |p|, i)), NodesOf(nodes, PlacedOn(order, a, |p|, i)), Load(p, a, |p|, i)))
  }

  /** `min(shards, key=lambda row: (row["estimated_ms"], row["index"]))` */
  function LeastShard(shards: seq<Shard>): (i: nat)
    requires shards != []
    ensures i < |shards|
  {
    if |shards| == 1 then 0
    else
      var i := LeastShard(shards[..|shards| - 1]);
      if shards[|shards| - 1].estimatedMs < shards[i].estimatedMs then |shards| - 1 else i
  }

  lemma {:induction false} LeastShardIsLeastLoaded(shards: seq<Shard>, p: seq<nat>, a: seq<nat>, n: nat)
    requires shards != [] && n <= |p| && n <= |a|
    requires forall i :: 0 <= i < |shards| ==> shards[i].estimatedMs == Load(p, a, n, i)
    ensures LeastShard(shards) == LeastLoaded(p, a, n, |shards|)
  {
    if |shards| > 1 {
      LeastShardIsLeastLoaded(shards[..|shards| - 1], p, a, n);
    }
  }

  method Partition(nodes: seq<string>, weights: map<string, int>, count: int) returns (r: Result<seq<Shard>, Refusal>)
    ensures r.Ok? <==> Partitionable(nodes, weights, count)
    ensures r.Ok? ==> r.value == Parts(nodes, weights, count)
  {
    hide Parts, AllPlaced, PositiveWeights, Finished, Files;
    if count <= 0 { return Err(InvalidCount); }
    var files := Files(nodes);
    if !(2 <= count && count <= (if |files| < 4 then |files| else 4)) {
      return Err(EmptyShards);
    }
    if weights.Keys != files { return Err(WeightsDoNotCoverFiles); }
    if !PositiveWeights(weights) { return Err(InvalidWeight); }

    var shards := PlaceFiles(weights, count);
    PlacedAll(nodes, weights, count, shards);
    shards := FinishShards(nodes, shards);
    assert shards == Parts(nodes, weights, count);
    r := Ok(shards);
  }

  method PlaceFiles(weights: map<string, int>, count: nat) returns (shards: seq<Shard>)
    requires count > 0 && PositiveWeights(weights)
    ensures |shards| == count && AllPlaced(shards, weights)
  {
    hide Placed, AllPlaced, Order, Jobs, LeastShard;
    shards := seq(count, i requires 0 <= i < count => Shard(i, [], [], 0));
    var order := Order(weights);
    OrderInWeights(weights);
    ghost var p := Jobs(weights, order);
    NothingPlaced(shards, order, p);
    for n := 0 to |order|
      invariant |shards| == count && Placed(shards, order, p, n)
    {
      var name, chosen := order[n], LeastShard(shards);
      PlacedStep(shards, order, p, n);
      shards := shards[chosen := shards[chosen].(files := shards[chosen].files + [name],
                                                 estimatedMs := shards[chosen].estimatedMs + weights[name])];
    }
    PlacedToTheEnd(shards, weights);
  }

  lemma NothingPlaced(shards: seq<Shard>, order: seq<string>, p: seq<nat>)
    requires shards != [] && |order| == |p|
    requires forall i :: 0 <= i < |shards| ==> shards[i] == Shard(i, [], [], 0)
    ensures Placed(shards, order, p, 0)
  {
  }

  lemma PlacedToTheEnd(shards: seq<Shard>, weights: map<string, int>)
    requires shards != [] && PositiveWeights(weights)
    requires (forall k :: 0 <= k < |Order(weights)| ==> Order(weights)[k] in weights)
    requires Placed(shards, Order(weights), Jobs(weights, Order(weights)), |Order(weights)|)
    ensures AllPlaced(shards, weights)
  {
    hide Placed, Order, Jobs;
  }

  method FinishShards(nodes: seq<string>, filled: seq<Shard>) returns (shards: seq<Shard>)
    ensures |shards| == |filled|
    ensures forall i :: 0 <= i < |shards| ==> shards[i] == Finished(nodes, filled[i])
  {
    shards := filled;
    for i := 0 to |shards|
      invariant |shards| == |filled|
      invariant forall j :: i <= j < |shards| ==> shards[j] == filled[j]
      invariant forall j :: 0 <= j < i ==> shards[j] == Finished(nodes, filled[j])
    {
      var selected := Elements(shards[i].files);
      shards := shards[i := shards[i].(files := Sorted(selected), nodes := NodesOf(nodes, selected))];
    }
  }

  lemma OrderInWeights(weights: map<string, int>)
    ensures forall k :: 0 <= k < |Order(weights)| ==> Order(weights)[k] in weights
  {
  }

  ghost predicate AllPlaced(shards: seq<Shard>, weights: map<string, int>)
    requires shards != [] && PositiveWeights(weights)
  {
    OrderInWeights(weights);
    var order := Order(weights);
    Placed(shards, order, Jobs(weights, order), |order|)
  }

  function Finished(nodes: seq<string>, shard: Shard): Shard {
    var selected := Elements(shard.files);
    shard.(files := Sorted(selected), nodes := NodesOf(nodes, selected))
  }

  lemma PlacedAll(nodes: seq<string>, weights: map<string, int>, count: nat, filled: seq<Shard>)
    requires count > 0 && |filled| == count && PositiveWeights(weights) && AllPlaced(filled, weights)
    ensures forall i :: 0 <= i < count ==> Parts(nodes, weights, count)[i] == Finished(nodes, filled[i])
  {
  }

  /** The shard records once the first n jobs of the order have been placed. */
  ghost predicate Placed(shards: seq<Shard>, order: seq<string>, p: seq<nat>, n: nat)
    requires shards != [] && n <= |order| == |p|
  {
    var a := Placement(p, |shards|, n);
    forall i :: 0 <= i < |shards| ==>
      && shards[i].index == i && shards[i].nodes == []
      && shards[i].estimatedMs == Load(p, a, n, i)
      && Elements(shards[i].files) == PlacedOn(order, a, n, i)
  }

  lemma PlacedStep(shards: seq<Shard>, order: seq<string>, p: seq<nat>, n: nat)
    requires shards != [] && n < |order| == |p| && Placed(shards, order, p, n)
    ensures var chosen := LeastShard(shards);
            Placed(shards[chosen := shards[chosen].(files := shards[chosen].files + [order[n]],
                                                    estimatedMs := shards[chosen].estimatedMs + p[n])],
                   order, p, n + 1)
  {
    var chosen, m := LeastShard(shards), |shards|;
    var a, a' := Placement(p, m, n), Placement(p, m, n + 1);
    LeastShardIsLeastLoaded(shards, p, a, n);
    assert a' == a + [chosen];
    var after := shards[chosen := shards[chosen].(files := shards[chosen].files + [order[n]],
                                                  estimatedMs := shards[chosen].estimatedMs + p[n])];
    forall i | 0 <= i < m
      ensures after[i].estimatedMs == Load(p, a', n + 1, i)
      ensures Elements(after[i].files) == PlacedOn(order, a', n + 1, i)
    {
      LoadPrefix(p, a, a', n, i);
      PlacedOnStep(order, a, a', n, i);
      ElementsAppend(shards[i].files, order[n]);
    }
  }

  lemma ElementsAppend(r: seq<string>, x: string)
    ensures Elements(r + [x]) == Elements(r) + {x}
  {
  }

  lemma PlacedOnStep(order: seq<string>, a: seq<nat>, a': seq<nat>, n: nat, i: nat)
    requires n < |order| && n == |a| && n + 1 == |a'| && a'[..n] == a
    ensures PlacedOn(order, a', n + 1, i) == PlacedOn(order, a, n, i) + if a'[n] == i then {order[n]} else {}
  {
  }
}
