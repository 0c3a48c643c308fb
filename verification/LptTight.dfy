/** Graham's bound is attained for every number of machines, so its factor cannot be improved. */
module LptTight {
  import opened Lpt

  /** The weight of job k: two jobs each of 2m-1, 2m-2, ..., m, and one more of m. */
  function Weight(m: nat, k: nat): nat
    requires m > 0 && k <= 2 * m
  {
    if k < 2 * m then 2 * m - 1 - k / 2 else m
  }

  function Weights(m: nat): (p: seq<nat>)
    requires m > 0
    ensures |p| == 2 * m + 1 && forall k :: 0 <= k < |p| ==> p[k] == Weight(m, k)
  {
    seq(2 * m + 1, k requires 0 <= k <= 2 * m => Weight(m, k))
  }

  /** Longest first: there and back again, and the last job on top. */
  function Folded(m: nat): (a: seq<nat>)
    requires m > 0
    ensures |a| == 2 * m + 1
    ensures forall k :: 0 <= k < |a| ==> a[k] == if k < m then k else if k < 2 * m then 2 * m - 1 - k else 0
  {
    seq(2 * m + 1, k requires 0 <= k <= 2 * m => if k < m then k else if k < 2 * m then 2 * m - 1 - k else 0)
  }

  /** The best: the three jobs of weight m on one machine, a heavy and a light job on each other. */
  function Paired(m: nat): (b: seq<nat>)
    requires m > 0
    ensures |b| == 2 * m + 1
    ensures forall k :: 0 <= k < |b| ==> b[k] == if k < m - 1 then k else if k < 2 * m - 2 then 2 * m - 3 - k else m - 1
  {
    seq(2 * m + 1, k requires 0 <= k <= 2 * m =>
        if k < m - 1 then k else if k < 2 * m - 2 then 2 * m - 3 - k else m - 1)
  }

  function If(c: bool, w: nat): nat {
    if c then w else 0
  }

  lemma {:induction false} FoldedLoad(m: nat, n: nat, i: nat)
    requires 0 < m && n <= 2 * m && i < m
    ensures Load(Weights(m), Folded(m), n, i) == If(i < n, Weight(m, i))
              + If(2 * m - 1 - i < n, Weight(m, 2 * m - 1 - i))
    decreases n
  {
    if n > 0 {
      FoldedLoad(m, n - 1, i);
    }
  }

  lemma {:induction false} PairedLoad(m: nat, n: nat, i: nat)
    requires 0 < m && n <= 2 * m + 1 && i < m - 1
    ensures Load(Weights(m), Paired(m), n, i) == If(i < n, Weight(m, i))
              + If(2 * m - 3 - i < n, Weight(m, 2 * m - 3 - i))
    decreases n
  {
    if n > 0 {
      PairedLoad(m, n - 1, i);
    }
  }

  lemma {:induction false} ThreeLight(m: nat, n: nat)
    requires 0 < m && n <= 2 * m + 1
    ensures Load(Weights(m), Paired(m), n, m - 1)
         == If(2 * m - 2 < n, m) + If(2 * m - 1 < n, m) + If(2 * m < n, m)
    decreases n
  {
    if n > 0 {
      ThreeLight(m, n - 1);
    }
  }

  lemma FoldedGreedy(m: nat)
    requires m > 0
    ensures Greedy(Weights(m), Folded(m), m)
  {
    hide Load, If;
    forall k | 0 <= k < 2 * m + 1 ensures LeastAt(Weights(m), Folded(m), m, k) {
      var chosen := Folded(m)[k];
      forall i | 0 <= i < m ensures Load(Weights(m), Folded(m), k, chosen) <= Load(Weights(m), Folded(m), k, i) {
        LighterMachine(m, k, i);
      }
    }
  }

  lemma LighterMachine(m: nat, k: nat, i: nat)
    requires m > 0 && k <= 2 * m && i < m
    ensures Folded(m)[k] < m && Load(Weights(m), Folded(m), k, Folded(m)[k]) <= Load(Weights(m), Folded(m), k, i)
  {
    hide Load;
    FoldedLoad(m, k, i);
    FoldedLoad(m, k, Folded(m)[k]);
  }

  lemma PairedWithin(m: nat)
    requires m > 0
    ensures Within(Weights(m), Paired(m), 2 * m + 1, m, 3 * m)
    ensures Load(Weights(m), Paired(m), 2 * m + 1, m - 1) == 3 * m
  {
    hide Load;
    var n := 2 * m + 1;
    ThreeLight(m, n);
    forall i | 0 <= i < m ensures Load(Weights(m), Paired(m), n, i) <= 3 * m {
      if i < m - 1 {
        PairedLoad(m, n, i);
      }
    }
  }

  /**
   For every m there are jobs and a longest-first greedy placement on m machines whose makespan is
   exactly 4/3 - 1/(3m) times that of the best assignment.
   */
  lemma LptBoundTight(m: nat)
    requires m > 0
    ensures var p, a, b := Weights(m), Folded(m), Paired(m);
            && Positive(p) && LongestFirst(p) && Greedy(p, a, m) && |a| == |p| && Assignment(b, |p|, m)
            && Makespan(p, a, |p|, m) == 4 * m - 1 && Makespan(p, b, |p|, m) == 3 * m
            && 3 * m * Makespan(p, a, |p|, m) == (4 * m - 1) * Makespan(p, b, |p|, m)
  {
    hide Load, Makespan, Greedy;
    var p, a, b, n := Weights(m), Folded(m), Paired(m), 2 * m + 1;
    FoldedGreedy(m);
    PairedWithin(m);
    MakespanBounds(p, b, n, m);
    MakespanBounds(p, a, n, m);
    LptBound(p, a, b, m);
    LastOnTop(m);
    Divide(m, Makespan(p, a, n, m));
  }

  lemma LastOnTop(m: nat)
    requires m > 0
    ensures Load(Weights(m), Folded(m), 2 * m + 1, 0) == 4 * m - 1
  {
    FoldedLoad(m, 2 * m, 0);
  }

  lemma Divide(m: nat, x: nat)
    requires m > 0 && x >= 4 * m - 1 && 3 * m * x <= (4 * m - 1) * (3 * m)
    ensures x == 4 * m - 1
  {
    var d := x - (4 * m - 1);
    assert 3 * m * d == 3 * m * x - (4 * m - 1) * (3 * m);
    assert d == 0 || 3 * m * d > 0;
  }
}
