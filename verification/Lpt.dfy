/**
 Longest-processing-time list scheduling, and Graham's bound for it.

 Jobs are numbered in the order they are placed; `p[k]` is the weight of job k.  An
 assignment `a` gives the machine of each job, and `Load(p, a, n, i)` is what machine i
 carries once jobs 0..n-1 have been placed.
 */
module Lpt {

  function Load(p: seq<nat>, a: seq<nat>, n: nat, i: nat): nat
    requires n <= |p| && n <= |a|
  {
    if n == 0 then 0
    else Load(p, a, n - 1, i) + if a[n - 1] == i then p[n - 1] else 0
  }

  /** The total carried by machines 0..m-1. */
  ghost function TotalLoad(p: seq<nat>, a: seq<nat>, n: nat, m: nat): nat
    requires n <= |p| && n <= |a|
  {
    if m == 0 then 0 else TotalLoad(p, a, n, m - 1) + Load(p, a, n, m - 1)
  }

  ghost function Sum(p: seq<nat>, n: nat): nat
    requires n <= |p|
  {
    if n == 0 then 0 else Sum(p, n - 1) + p[n - 1]
  }

  /** The largest load among machines 0..m-1: the completion time of the schedule. */
  function Makespan(p: seq<nat>, a: seq<nat>, n: nat, m: nat): nat
    requires n <= |p| && n <= |a|
  {
    if m == 0 then 0
    else
      var rest := Makespan(p, a, n, m - 1);
      var last := Load(p, a, n, m - 1);
      if rest < last then last else rest
  }

  ghost predicate Assignment(a: seq<nat>, n: nat, m: nat) {
    |a| == n && forall k :: 0 <= k < n ==> a[k] < m
  }

  /** Machine a[k] is least loaded when job k arrives. */
  ghost predicate LeastAt(p: seq<nat>, a: seq<nat>, m: nat, k: nat)
    requires k < |a| && k <= |p|
  {
    a[k] < m && forall i :: 0 <= i < m ==> Load(p, a, k, a[k]) <= Load(p, a, k, i)
  }

  /** Every job goes to a machine that is least loaded when the job arrives. */
  ghost predicate Greedy(p: seq<nat>, a: seq<nat>, m: nat) {
    && |a| <= |p|
    && (forall k :: 0 <= k < |a| ==> LeastAt(p, a, m, k))
    && (forall k :: 0 <= k < |a| ==> a[k] < m)
  }

  ghost predicate Positive(p: seq<nat>) {
    forall k :: 0 <= k < |p| ==> p[k] > 0
  }

  ghost predicate LongestFirst(p: seq<nat>) {
    forall j, k :: 0 <= j <= k < |p| ==> p[k] <= p[j]
  }

  /** No machine carries more than c. */
  ghost predicate Within(p: seq<nat>, a: seq<nat>, n: nat, m: nat, c: nat)
    requires n <= |p| && n <= |a|
  {
    forall i :: 0 <= i < m ==> Load(p, a, n, i) <= c
  }

  // ----- loads and makespans

  lemma {:induction false} MakespanBounds(p: seq<nat>, a: seq<nat>, n: nat, m: nat)
    requires n <= |p| && n <= |a|
    ensures Within(p, a, n, m, Makespan(p, a, n, m))
    ensures m > 0 ==> exists i :: 0 <= i < m && Load(p, a, n, i) == Makespan(p, a, n, m)
  {
    if m > 0 {
      MakespanBounds(p, a, n, m - 1);
      if Makespan(p, a, n, m - 1) >= Load(p, a, n, m - 1) && m > 1 {
        var i :| 0 <= i < m - 1 && Load(p, a, n, i) == Makespan(p, a, n, m - 1);
      } else {
        assert Makespan(p, a, n, m) == Load(p, a, n, m - 1);
      }
    }
  }

  lemma {:induction false} LoadMonotone(p: seq<nat>, a: seq<nat>, n: nat, n': nat, i: nat)
    requires n <= n' <= |p| && n' <= |a|
    ensures Load(p, a, n, i) <= Load(p, a, n', i)
    decreases n'
  {
    if n < n' {
      LoadMonotone(p, a, n, n' - 1, i);
    }
  }

  lemma WithinEarlier(p: seq<nat>, a: seq<nat>, n: nat, n': nat, m: nat, c: nat)
    requires n <= n' <= |p| && n' <= |a| && Within(p, a, n', m, c)
    ensures Within(p, a, n, m, c)
  {
    forall i | 0 <= i < m ensures Load(p, a, n, i) <= c {
      LoadMonotone(p, a, n, n', i);
    }
  }

  /** Machines left alone between two moments keep their load. */
  lemma {:induction false} LoadUntouched(p: seq<nat>, a: seq<nat>, n: nat, n': nat, i: nat)
    requires n <= n' <= |p| && n' <= |a|
    requires forall k :: n <= k < n' ==> a[k] != i
    ensures Load(p, a, n', i) == Load(p, a, n, i)
    decreases n'
  {
    if n < n' {
      LoadUntouched(p, a, n, n' - 1, i);
    }
  }

  lemma {:induction false} LoadIncludes(p: seq<nat>, a: seq<nat>, n: nat, k: nat)
    requires k < n <= |p| && n <= |a|
    ensures Load(p, a, n, a[k]) >= Load(p, a, k, a[k]) + p[k]
  {
    LoadMonotone(p, a, k + 1, n, a[k]);
  }

  /** Nothing is lost: the machines together carry every job placed. */
  lemma {:induction false} Conservation(p: seq<nat>, a: seq<nat>, n: nat, m: nat)
    requires n <= |p| && n <= |a| && forall k :: 0 <= k < n ==> a[k] < m
    ensures TotalLoad(p, a, n, m) == Sum(p, n)
  {
    if n == 0 {
      TotalEmpty(p, a, m);
    } else {
      Conservation(p, a, n - 1, m);
      TotalAdds(p, a, n, m);
    }
  }

  lemma {:induction false} TotalEmpty(p: seq<nat>, a: seq<nat>, m: nat)
    ensures TotalLoad(p, a, 0, m) == 0
  {
    if m > 0 { TotalEmpty(p, a, m - 1); }
  }

  lemma {:induction false} TotalAdds(p: seq<nat>, a: seq<nat>, n: nat, m: nat)
    requires 0 < n <= |p| && n <= |a|
    ensures TotalLoad(p, a, n, m) == TotalLoad(p, a, n - 1, m) + if a[n - 1] < m then p[n - 1] else 0
  {
    if m > 0 { TotalAdds(p, a, n, m - 1); }
  }

  lemma {:induction false} TotalBetween(p: seq<nat>, a: seq<nat>, n: nat, m: nat, low: nat, high: nat)
    requires n <= |p| && n <= |a|
    requires forall i :: 0 <= i < m ==> low <= Load(p, a, n, i) <= high
    ensures low * m <= TotalLoad(p, a, n, m) <= high * m
  {
    if m > 0 {
      TotalBetween(p, a, n, m - 1, low, high);
      Successor(low, m);
      Successor(high, m);
    }
  }

  lemma Successor(x: nat, m: nat)
    requires m > 0
    ensures x * m == x * (m - 1) + x
  {
  }

  // ----- what the greedy rule gives

  /** With the least-loaded machine below by at most the heaviest job, at every moment. */
  lemma {:induction false} GreedyBalanced(p: seq<nat>, a: seq<nat>, m: nat, n: nat, i: nat, i': nat, heaviest: nat)
    requires Greedy(p, a, m) && n <= |a| && i < m && i' < m
    requires forall k :: 0 <= k < |p| ==> p[k] <= heaviest
    ensures Load(p, a, n, i) <= Load(p, a, n, i') + heaviest
  {
    if n > 0 {
      GreedyBalanced(p, a, m, n - 1, i, i', heaviest);
      assert LeastAt(p, a, m, n - 1);
    }
  }

  /** A machine's final load is the load it had when its last job came, plus that job. */
  lemma {:induction false} LastJob(p: seq<nat>, a: seq<nat>, n: nat, i: nat) returns (j: nat)
    requires n <= |p| && n <= |a| && Load(p, a, n, i) > 0
    ensures j < n && a[j] == i && Load(p, a, n, i) == Load(p, a, j, i) + p[j]
  {
    if a[n - 1] == i {
      j := n - 1;
    } else {
      j := LastJob(p, a, n - 1, i);
    }
  }

  /** While jobs are fewer than machines, every job opens a machine of its own. */
  lemma {:induction false} OpensNewMachine(p: seq<nat>, a: seq<nat>, m: nat, k: nat)
    requires Greedy(p, a, m) && Positive(p) && k < |a| && k < m
    ensures Load(p, a, k, a[k]) == 0
    ensures forall j :: 0 <= j < k ==> a[j] != a[k]
  {
    var free := UnusedMachine(a, k, m);
    LoadUntouched(p, a, 0, k, free);
    assert LeastAt(p, a, m, k);
    assert Load(p, a, k, a[k]) <= Load(p, a, k, free) == 0;
    forall j | 0 <= j < k ensures a[j] != a[k] {
      LoadIncludes(p, a, k, j);
      assert p[j] > 0;
    }
  }

  lemma UnusedMachine(a: seq<nat>, k: nat, m: nat) returns (i: nat)
    requires k <= |a| && k < m
    ensures i < m && forall j :: 0 <= j < k ==> a[j] != i
  {
    var used := UsedSize(a, 0, k);
    var all := Range(0, m);
    if all <= used {
      SubsetSize(all, used);
      assert false;
    }
    i :| i in all && i !in used;
    forall j | 0 <= j < k ensures a[j] != i { assert a[j] in used; }
  }

  lemma {:induction false} UsedSize(a: seq<nat>, lo: nat, hi: nat) returns (used: set<nat>)
    requires lo <= hi <= |a|
    ensures used == set k | lo <= k < hi :: a[k]
    ensures |used| <= hi - lo
    decreases hi
  {
    used := set k | lo <= k < hi :: a[k];
    if lo < hi {
      var fewer := UsedSize(a, lo, hi - 1);
      assert used == fewer + {a[hi - 1]};
    } else {
      assert used == {};
    }
  }

  ghost function Range(lo: nat, hi: nat): (s: set<nat>)
    requires lo <= hi
    ensures |s| == hi - lo && forall k :: k in s <==> lo <= k < hi
    decreases hi
  {
    if lo == hi then {} else Range(lo, hi - 1) + {hi - 1}
  }

  lemma {:induction false} SubsetSize<T>(s: set<T>, t: set<T>)
    requires s <= t
    ensures |s| <= |t|
  {
    assert t == s + (t - s);
  }

  /**
   The scheduling half of Graham's argument.  When job j arrives with m <= j < 2m, some
   machine still holds only one of the first m jobs, and one no heavier than job 2m-1-j.
   */
  lemma {:induction false} LightMachine(p: seq<nat>, a: seq<nat>, m: nat, j: nat) returns (i: nat)
    requires Greedy(p, a, m) && Positive(p) && LongestFirst(p)
    requires m <= j < |a| && j < 2 * m
    ensures i < m && Load(p, a, j, i) <= p[2 * m - 1 - j]
  {
    var q := 2 * m - 1 - j;
    var firsts := FirstMachines(p, a, m, q, m);
    var later := UsedSize(a, m, j);
    if firsts <= later {
      SubsetSize(firsts, later);
      assert false;
    }
    i :| i in firsts && i !in later;
    var k :| q <= k < m && a[k] == i;
    forall k' | k + 1 <= k' < j ensures a[k'] != i {
      if k' < m { OpensNewMachine(p, a, m, k'); } else { assert a[k'] in later; }
    }
    OpensNewMachine(p, a, m, k);
    LoadUntouched(p, a, k + 1, j, i);
    assert Load(p, a, j, i) == p[k] <= p[q];
  }

  lemma {:induction false} FirstMachines(p: seq<nat>, a: seq<nat>, m: nat, lo: nat, hi: nat) returns (s: set<nat>)
    requires Greedy(p, a, m) && Positive(p) && lo <= hi <= m && hi <= |a|
    ensures s == set k | lo <= k < hi :: a[k]
    ensures |s| == hi - lo
    decreases hi
  {
    s := set k | lo <= k < hi :: a[k];
    if lo < hi {
      var fewer := FirstMachines(p, a, m, lo, hi - 1);
      OpensNewMachine(p, a, m, hi - 1);
      assert a[hi - 1] !in fewer;
      assert s == fewer + {a[hi - 1]};
    } else {
      assert s == {};
    }
  }

  // ----- what every schedule must pay

  lemma {:induction false} TwoOnOne(p: seq<nat>, b: seq<nat>, n: nat, x: nat, y: nat)
    requires x < y < n <= |p| && n <= |b| && b[x] == b[y]
    ensures Load(p, b, n, b[x]) >= p[x] + p[y]
  {
    LoadIncludes(p, b, n, y);
    LoadIncludes(p, b, y, x);
  }

  lemma {:induction false} ThreeOnOne(p: seq<nat>, b: seq<nat>, n: nat, x: nat, y: nat, z: nat)
    requires x < y < z < n <= |p| && n <= |b| && b[x] == b[y] == b[z]
    ensures Load(p, b, n, b[x]) >= p[x] + p[y] + p[z]
  {
    LoadIncludes(p, b, n, z);
    TwoOnOne(p, b, z, x, y);
  }

  /** Jobs that sit at most two to a machine number at most twice the machines. */
  lemma {:induction false} TwoPerMachine(b: seq<nat>, jobs: set<nat>, machines: set<nat>)
    requires forall x :: x in jobs ==> x < |b| && b[x] in machines
    requires forall x, y, z :: x in jobs && y in jobs && z in jobs && x < y < z ==> !(b[x] == b[y] == b[z])
    ensures |jobs| <= 2 * |machines|
    decreases |machines|
  {
    if machines == {} {
      assert jobs == {};
    } else {
      var i :| i in machines;
      var here := set x | x in jobs && b[x] == i;
      var rest := jobs - here;
      TwoPerMachine(b, rest, machines - {i});
      assert jobs == here + rest;
      if |here| > 2 {
        var x, y, z := ThreeOf(here);
      }
    }
  }

  lemma ThreeOf(s: set<nat>) returns (x: nat, y: nat, z: nat)
    requires |s| > 2
    ensures x in s && y in s && z in s && x < y < z
  {
    var u :| u in s;
    assert |s - {u}| > 1;
    var v :| v in s - {u};
    assert |s - {u} - {v}| > 0;
    var w :| w in s - {u} - {v};
    x := if u < v then (if u < w then u else w) else (if v < w then v else w);
    z := if u > v then (if u > w then u else w) else (if v > w then v else w);
    y := u + v + w - x - z;
  }

  /** Jobs each alone on their machine, among jobs 0..j. */
  ghost predicate Alone(b: seq<nat>, j: nat, x: nat)
    requires j < |b| && x <= j
  {
    forall y :: 0 <= y <= j && y != x ==> b[y] != b[x]
  }

  lemma {:induction false} AloneMachines(b: seq<nat>, j: nat, q: nat) returns (s: set<nat>)
    requires j < |b| && q <= j + 1 && forall x :: 0 <= x < q ==> Alone(b, j, x)
    ensures s == set x | 0 <= x < q :: b[x]
    ensures |s| == q
    decreases q
  {
    s := set x | 0 <= x < q :: b[x];
    if q == 0 {
      assert s == {};
    } else {
      var fewer := AloneMachines(b, j, q - 1);
      assert Alone(b, j, q - 1);
      assert b[q - 1] !in fewer;
      assert s == fewer + {b[q - 1]};
    }
  }

  /**
   The other half: if no machine of schedule b holds three of jobs 0..j, with m <= j, then
   one of the jobs 0..2m-1-j shares its machine, so b runs at least that pair long.
   */
  lemma {:induction false} SomePairShares(p: seq<nat>, b: seq<nat>, m: nat, j: nat)
    returns (x: nat, y: nat)
    requires j < |p| && Assignment(b, |p|, m) && m <= j < 2 * m
    requires forall x, y, z :: 0 <= x < y < z <= j ==> !(b[x] == b[y] == b[z])
    ensures x <= 2 * m - 1 - j && y <= j && x != y && b[x] == b[y]
  {
    var q := 2 * m - 1 - j;
    if forall x :: 0 <= x <= q ==> Alone(b, j, x) {
      LoneJobsCrowdOthers(b, m, j, q);
    }
    x :| 0 <= x <= q && !Alone(b, j, x);
    y :| 0 <= y <= j && y != x && b[y] == b[x];
  }

  /** Lone jobs take a machine each; the other jobs then fit two to each machine left. */
  lemma LoneJobsCrowdOthers(b: seq<nat>, m: nat, j: nat, q: nat)
    requires j < |b| && q <= j && forall k :: 0 <= k <= j ==> b[k] < m
    requires forall x, y, z :: 0 <= x < y < z <= j ==> !(b[x] == b[y] == b[z])
    requires forall x :: 0 <= x <= q ==> Alone(b, j, x)
    ensures j - q <= 2 * (m - (q + 1))
  {
    var taken := AloneMachines(b, j, q + 1);
    var all, jobs := Range(0, m), Range(q + 1, j + 1);
    forall k | k in jobs ensures b[k] in all - taken {
      forall x | 0 <= x < q + 1 ensures b[k] != b[x] { assert Alone(b, j, x); }
    }
    assert taken <= all;
    assert all == taken + (all - taken);
    TwoPerMachine(b, jobs, all - taken);
  }

  // ----- Graham's bound

  /** The averaging argument: what job j reaches is bounded by the mean plus its own share. */
  lemma {:induction false} Averaging(p: seq<nat>, a: seq<nat>, b: seq<nat>, m: nat, j: nat, c: nat)
    requires Greedy(p, a, m) && |a| == |p| && j < |a|
    requires Assignment(b, |p|, m) && Within(p, b, j + 1, m, c)
    ensures m * (Load(p, a, j, a[j]) + p[j]) <= m * c + (m - 1) * p[j]
  {
    var low := Load(p, a, j, a[j]);
    assert LeastAt(p, a, m, j);
    assert low * m <= Sum(p, j) by {
      MakespanBounds(p, a, j, m);
      TotalBetween(p, a, j, m, low, Makespan(p, a, j, m));
      Conservation(p, a, j, m);
    }
    assert Sum(p, j) + p[j] <= c * m by {
      TotalBetween(p, b, j + 1, m, 0, c);
      Conservation(p, b, j + 1, m);
    }
    Shift(m, low, p[j]);
  }

  lemma Shift(m: nat, low: nat, w: nat)
    requires m > 0
    ensures m * (low + w) == low * m + w + (m - 1) * w
  {
  }

  /** When every job is more than a third of the optimum, the greedy schedule is optimal. */
  lemma {:induction false} LargeJobs(p: seq<nat>, a: seq<nat>, b: seq<nat>, m: nat, j: nat, c: nat)
    requires Greedy(p, a, m) && |a| == |p| && j < |p| && Positive(p) && LongestFirst(p)
    requires Assignment(b, |p|, m) && Within(p, b, j + 1, m, c)
    requires 3 * p[j] > c
    ensures Load(p, a, j, a[j]) + p[j] <= c
  {
    LoadIncludes(p, b, j + 1, j);
    if j < m {
      OpensNewMachine(p, a, m, j);
      assert Load(p, b, j + 1, b[j]) <= c;
    } else {
      forall x, y, z | 0 <= x < y < z <= j ensures !(b[x] == b[y] == b[z]) {
        if b[x] == b[y] == b[z] {
          assert Load(p, b, j + 1, b[x]) <= c;
          ThreeOnOne(p, b, j + 1, x, y, z);
        }
      }
      AtMostTwiceMachines(b, m, j);
      var x, y := SomePairShares(p, b, m, j);
      TwoOnOne(p, b, j + 1, if x < y then x else y, if x < y then y else x);
      assert Load(p, b, j + 1, b[x]) <= c;
      var i := LightMachine(p, a, m, j);
      assert LeastAt(p, a, m, j);
      assert Load(p, a, j, a[j]) <= Load(p, a, j, i) <= p[2 * m - 1 - j] <= p[x];
      assert p[j] <= p[y];
    }
  }

  lemma AtMostTwiceMachines(b: seq<nat>, m: nat, j: nat)
    requires j < |b| && forall k :: 0 <= k < |b| ==> b[k] < m
    requires forall x, y, z :: 0 <= x < y < z <= j ==> !(b[x] == b[y] == b[z])
    ensures j < 2 * m
  {
    TwoPerMachine(b, Range(0, j + 1), Range(0, m));
  }

  /**
   Graham's theorem: the greedy longest-first schedule a is never longer than
   (4/3 - 1/(3m)) times any schedule b of the same jobs on the same m machines.
   */
  lemma {:induction false} LptBound(p: seq<nat>, a: seq<nat>, b: seq<nat>, m: nat)
    requires m > 0 && Positive(p) && LongestFirst(p)
    requires Greedy(p, a, m) && |a| == |p| && Assignment(b, |p|, m)
    ensures 3 * m * Makespan(p, a, |p|, m) <= (4 * m - 1) * Makespan(p, b, |p|, m)
  {
    var n, c := |p|, Makespan(p, b, |p|, m);
    MakespanBounds(p, a, n, m);
    MakespanBounds(p, b, n, m);
    var i :| 0 <= i < m && Load(p, a, n, i) == Makespan(p, a, n, m);
    if Load(p, a, n, i) == 0 {
      Monotone(4 * m - 1, 0, c);
    } else {
      var j := LastJob(p, a, n, i);
      WithinEarlier(p, b, j + 1, n, m, c);
      var t := Load(p, a, n, i);
      if 3 * p[j] <= c {
        Averaging(p, a, b, m, j, c);
        Thirds(m, t, c, p[j]);
      } else {
        LargeJobs(p, a, b, m, j, c);
        assert t <= c;
        Scale(m, t, c);
      }
    }
  }

  lemma Thirds(m: nat, t: nat, c: nat, w: nat)
    requires m > 0 && m * t <= m * c + (m - 1) * w && 3 * w <= c
    ensures 3 * m * t <= (4 * m - 1) * c
  {
    Monotone(m - 1, 3 * w, c);
    assert (m - 1) * (3 * w) == 3 * ((m - 1) * w);
    assert 3 * m * t == 3 * (m * t);
    assert (4 * m - 1) * c == 3 * (m * c) + (m - 1) * c;
  }

  lemma Monotone(k: nat, x: nat, y: nat)
    requires x <= y
    ensures k * x <= k * y
  {
  }

  lemma Twice(m: nat, c: nat)
    requires m > 0
    ensures m * c + (m - 1) * c == (2 * m - 1) * c
  {
  }

  lemma Scale(m: nat, t: nat, c: nat)
    requires m > 0 && t <= c
    ensures 3 * m * t <= (4 * m - 1) * c
  {
    assert 3 * m * t <= 3 * m * c;
    assert 3 * m * c + (m - 1) * c == (4 * m - 1) * c;
  }

  /** The weaker list-scheduling bound, which needs neither the order nor positive weights. */
  lemma {:induction false} ListBound(p: seq<nat>, a: seq<nat>, b: seq<nat>, m: nat)
    requires m > 0 && Greedy(p, a, m) && |a| == |p| && Assignment(b, |p|, m)
    ensures m * Makespan(p, a, |p|, m) <= (2 * m - 1) * Makespan(p, b, |p|, m)
  {
    var n, c := |p|, Makespan(p, b, |p|, m);
    MakespanBounds(p, a, n, m);
    MakespanBounds(p, b, n, m);
    var i :| 0 <= i < m && Load(p, a, n, i) == Makespan(p, a, n, m);
    if Load(p, a, n, i) == 0 {
      Monotone(2 * m - 1, 0, c);
    } else {
      var j := LastJob(p, a, n, i);
      WithinEarlier(p, b, j + 1, n, m, c);
      Averaging(p, a, b, m, j, c);
      LoadIncludes(p, b, j + 1, j);
      assert Load(p, b, j + 1, b[j]) <= c;
      Monotone(m - 1, p[j], c);
      Twice(m, c);
    }
  }
}
