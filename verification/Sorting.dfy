/** Python's `sorted`, on a finite set under a total order, and the code-point order on strings. */
module Sorting {

  ghost predicate TotalOn<T(!new)>(s: set<T>, leq: (T, T) -> bool) {
    && (forall x, y :: x in s && y in s ==> leq(x, y) || leq(y, x))
    && (forall x, y :: x in s && y in s && leq(x, y) && leq(y, x) ==> x == y)
    && (forall x, y, z :: x in s && y in s && z in s && leq(x, y) && leq(y, z) ==> leq(x, z))
  }

  ghost predicate Ascending<T(!new)>(r: seq<T>, leq: (T, T) -> bool) {
    forall i, j :: 0 <= i < j < |r| ==> leq(r[i], r[j]) && r[i] != r[j]
  }

  function Elements<T(==)>(r: seq<T>): set<T> {
    set x | x in r
  }

  predicate Distinct<T(==)>(s: seq<T>) {
    forall i, j :: 0 <= i < j < |s| ==> s[i] != s[j]
  }

  lemma DistinctAppend<T>(s: seq<T>, x: T)
    requires Distinct(s) && x !in Elements(s)
    ensures Distinct(s + [x]) && Elements(s + [x]) == Elements(s) + {x}
  {
  }

  lemma SameMembers(a: seq<string>, b: seq<string>)
    requires multiset(a) == multiset(b)
    ensures Elements(a) == Elements(b) && |a| == |b|
  {
    assert forall x :: x in a <==> x in multiset(a);
    assert forall x :: x in b <==> x in multiset(b);
    assert |a| == |multiset(a)| == |multiset(b)| == |b|;
  }

  lemma LeastExists<T(!new)>(s: set<T>, leq: (T, T) -> bool)
    requires s != {} && TotalOn(s, leq)
    ensures exists x :: x in s && forall y :: y in s ==> leq(x, y)
    decreases |s|
  {
    var x :| x in s;
    var rest := s - {x};
    if rest == {} {
      assert s == {x};
    } else {
      LeastExists(rest, leq);
      var z :| z in rest && forall y :: y in rest ==> leq(z, y);
      var least := if leq(x, z) then x else z;
      assert forall y :: y in s ==> y == x || y in rest;
      assert forall y :: y in s ==> leq(least, y);
    }
  }

  lemma LeastFirst<T(!new)>(s: set<T>, x: T, rest: seq<T>, leq: (T, T) -> bool)
    requires x in s && forall y :: y in s ==> leq(x, y)
    requires Elements(rest) == s - {x} && |rest| == |s| - 1 && Ascending(rest, leq)
    ensures Elements([x] + rest) == s && |[x] + rest| == |s| && Ascending([x] + rest, leq)
  {
    var r := [x] + rest;
    forall i | 0 <= i < |rest| ensures leq(x, rest[i]) && x != rest[i] {
      assert rest[i] in Elements(rest);
    }
    forall i, j | 0 <= i < j < |r| ensures leq(r[i], r[j]) && r[i] != r[j] {
      assert i > 0 ==> leq(rest[i - 1], rest[j - 1]) && rest[i - 1] != rest[j - 1];
    }
    assert forall y :: y in r <==> y == x || y in rest;
    assert forall y :: y in rest <==> y in Elements(rest);
  }

  /** `sorted(s)`: the elements of a set, least first. */
  function SortSet<T(!new)>(s: set<T>, leq: (T, T) -> bool): (r: seq<T>)
    requires TotalOn(s, leq)
    ensures Elements(r) == s && |r| == |s|
    ensures Ascending(r, leq)
    decreases |s|
  {
    if s == {} then [] else
      LeastExists(s, leq);
      var x :| x in s && forall y | y in s :: leq(x, y);
      var rest := SortSet(s - {x}, leq);
      LeastFirst(s, x, rest, leq);
      [x] + rest
  }

  /** Two ascending listings of one set are the same list, so `sorted` is a function of the set. */
  lemma {:induction false} AscendingUnique<T(!new)>(a: seq<T>, b: seq<T>, leq: (T, T) -> bool)
    requires Elements(a) == Elements(b) && TotalOn(Elements(a), leq)
    requires Ascending(a, leq) && Ascending(b, leq)
    ensures a == b
    decreases |a|
  {
    if b != [] {
      assert b[0] in Elements(b);
    }
    if a != [] {
      assert a[0] in Elements(b);
      assert b != [];
      assert b[0] in Elements(a) && a[0] in Elements(a);
      assert leq(a[0], b[0]) && leq(b[0], a[0]);
      forall x | x in Elements(a[1..]) ensures x in Elements(b[1..]) {
        var i :| 1 <= i < |a| && a[i] == x;
        assert x in Elements(a) && x in b && x != a[0];
      }
      forall x | x in Elements(b[1..]) ensures x in Elements(a[1..]) {
        var i :| 1 <= i < |b| && b[i] == x;
        assert x in Elements(b) && x in a && x != a[0];
      }
      assert Elements(a[1..]) == Elements(b[1..]);
      AscendingUnique(a[1..], b[1..], leq);
      assert a == [a[0]] + a[1..] && b == [b[0]] + b[1..];
    }
  }

  /** Code-point order on strings, as Python compares `str`. */
  predicate Leq(a: string, b: string) {
    a == [] || (b != [] && (a[0] < b[0] || (a[0] == b[0] && Leq(a[1..], b[1..]))))
  }

  lemma LeqTotal(a: string, b: string)
    ensures Leq(a, b) || Leq(b, a)
    ensures Leq(a, a)
  {
  }

  lemma {:induction false} LeqAntisymmetric(a: string, b: string)
    requires Leq(a, b) && Leq(b, a)
    ensures a == b
  {
    if a != [] {
      LeqAntisymmetric(a[1..], b[1..]);
      assert a == [a[0]] + a[1..] && b == [b[0]] + b[1..];
    }
  }

  lemma {:induction false} LeqTransitive(a: string, b: string, c: string)
    requires Leq(a, b) && Leq(b, c)
    ensures Leq(a, c)
  {
    if a != [] && a[0] == b[0] && b[0] == c[0] {
      LeqTransitive(a[1..], b[1..], c[1..]);
    }
  }

  lemma {:induction false} PrefixLeq(a: string, b: string)
    requires a <= b
    ensures Leq(a, b)
  {
    if a != [] {
      PrefixLeq(a[1..], b[1..]);
    }
  }

  /** The first character in which two strings differ decides. */
  lemma {:induction false} LeqAtDifference(s: string, c: char, x: string, d: char, y: string)
    requires c < d
    ensures Leq(s + [c] + x, s + [d] + y) && !Leq(s + [d] + y, s + [c] + x)
  {
    if s == "" {
      assert s + [c] + x == [c] + x && s + [d] + y == [d] + y;
    } else {
      assert (s + [c] + x)[1..] == s[1..] + [c] + x && (s + [d] + y)[1..] == s[1..] + [d] + y;
      LeqAtDifference(s[1..], c, x, d, y);
    }
  }

  lemma LeqTotalOn(s: set<string>)
    ensures TotalOn(s, Leq)
  {
    forall x, y | x in s && y in s ensures Leq(x, y) || Leq(y, x) { LeqTotal(x, y); }
    forall x, y | x in s && y in s && Leq(x, y) && Leq(y, x) ensures x == y { LeqAntisymmetric(x, y); }
    forall x, y, z | x in s && y in s && z in s && Leq(x, y) && Leq(y, z) ensures Leq(x, z) {
      LeqTransitive(x, y, z);
    }
  }

  function Sorted(s: set<string>): (r: seq<string>)
    ensures Elements(r) == s && |r| == |s| && Ascending(r, Leq)
  {
    LeqTotalOn(s);
    SortSet(s, Leq)
  }

  predicate NumberLeq(a: int, b: int) {
    a <= b
  }

  /** `sorted`, on a set of numbers */
  function Listing(s: set<int>): (r: seq<int>)
    ensures Elements(r) == s && |r| == |s| && Ascending(r, NumberLeq)
  {
    SortSet(s, NumberLeq)
  }

  /** The only member of a singleton. */
  function The(s: set<int>): (x: int)
    requires |s| == 1
    ensures s == {x}
  {
    var r := Listing(s);
    assert r == [r[0]];
    r[0]
  }

  // ----- lists with repetitions

  ghost predicate InOrder<T(!new)>(s: seq<T>, leq: (T, T) -> bool) {
    forall i, j :: 0 <= i < j < |s| ==> leq(s[i], s[j])
  }

  ghost predicate TotalOrder<T(!new)>(leq: (T, T) -> bool) {
    && (forall x, y :: leq(x, y) || leq(y, x))
    && (forall x, y, z :: leq(x, y) && leq(y, z) ==> leq(x, z))
  }

  function Insert<T>(x: T, s: seq<T>, leq: (T, T) -> bool): seq<T> {
    if s == [] || leq(x, s[0]) then [x] + s else [s[0]] + Insert(x, s[1..], leq)
  }

  /** `sorted`, on a list */
  function SortList<T>(s: seq<T>, leq: (T, T) -> bool): seq<T> {
    if s == [] then [] else Insert(s[0], SortList(s[1..], leq), leq)
  }

  lemma {:induction false} InsertSorts<T(!new)>(x: T, s: seq<T>, leq: (T, T) -> bool)
    ensures multiset(Insert(x, s, leq)) == multiset(s) + multiset{x}
    ensures |Insert(x, s, leq)| == |s| + 1
    ensures TotalOrder(leq) && InOrder(s, leq) ==> InOrder(Insert(x, s, leq), leq)
  {
    if s == [] || leq(x, s[0]) {
      assert [x] + s == Insert(x, s, leq);
    } else {
      var tail := s[1..];
      var rest := Insert(x, tail, leq);
      InsertSorts(x, tail, leq);
      assert s == [s[0]] + tail;
      if TotalOrder(leq) && InOrder(s, leq) {
        forall j | 0 <= j < |rest| ensures leq(s[0], rest[j]) {
          assert rest[j] in multiset(rest);
          assert rest[j] == x || rest[j] in tail;
        }
      }
    }
  }

  /** Sorting rearranges a list into order. */
  lemma {:induction false} SortSorts<T(!new)>(s: seq<T>, leq: (T, T) -> bool)
    ensures multiset(SortList(s, leq)) == multiset(s) && |SortList(s, leq)| == |s|
    ensures TotalOrder(leq) ==> InOrder(SortList(s, leq), leq)
  {
    if s != [] {
      SortSorts(s[1..], leq);
      InsertSorts(s[0], SortList(s[1..], leq), leq);
      assert s == [s[0]] + s[1..];
    }
  }

  function CountIf<T>(s: seq<T>, f: T -> bool): nat {
    if s == [] then 0 else (if f(s[0]) then 1 else 0) + CountIf(s[1..], f)
  }

  lemma NoElements(s: set<int>)
    requires forall x :: x !in s
    ensures s == {}
  {
    var r := Listing(s);
    assert forall i :: 0 <= i < |r| ==> r[i] in Elements(r);
    assert |r| == |s|;
  }

  /** It counts the positions at which the test holds. */
  lemma {:induction false} CountIfPositions<T>(s: seq<T>, f: T -> bool, positions: set<int>)
    requires forall i :: i in positions <==> 0 <= i < |s| && f(s[i])
    ensures CountIf(s, f) == |positions|
    decreases |s|
  {
    if s == [] {
      NoElements(positions);
    } else {
      var n := |s| - 1;
      var init := s[..n];
      CountSplit(s, n, f);
      assert s[n..] == [s[n]] && s[n..][1..] == [];
      CountIfPositions(init, f, positions - {n});
      assert n in positions ==> positions == (positions - {n}) + {n};
    }
  }

  lemma {:induction false} SortCounts<T>(s: seq<T>, leq: (T, T) -> bool, f: T -> bool)
    ensures CountIf(SortList(s, leq), f) == CountIf(s, f)
  {
    if s != [] {
      SortCounts(s[1..], leq, f);
      InsertCounts(s[0], SortList(s[1..], leq), leq, f);
    }
  }

  lemma {:induction false} InsertCounts<T>(x: T, s: seq<T>, leq: (T, T) -> bool, f: T -> bool)
    ensures CountIf(Insert(x, s, leq), f) == CountIf(s, f) + if f(x) then 1 else 0
  {
    if s == [] || leq(x, s[0]) {
      assert ([x] + s)[1..] == s;
    } else {
      InsertCounts(x, s[1..], leq, f);
      assert ([s[0]] + Insert(x, s[1..], leq))[1..] == Insert(x, s[1..], leq);
    }
  }

  lemma {:induction false} CountSplit<T>(s: seq<T>, n: nat, f: T -> bool)
    requires n <= |s|
    ensures CountIf(s, f) == CountIf(s[..n], f) + CountIf(s[n..], f)
    ensures CountIf(s[..n], f) <= n
  {
    if n == 0 {
      assert s[0..] == s;
    } else {
      CountSplit(s[1..], n - 1, f);
      assert s[..n][1..] == s[1..][..n - 1] && s[1..][n - 1..] == s[n..];
    }
  }

  lemma {:induction false} CountAll<T>(s: seq<T>, f: T -> bool)
    requires forall x :: x in s ==> f(x)
    ensures CountIf(s, f) == |s|
  {
    if s != [] {
      assert s[0] in s && forall x :: x in s[1..] ==> x in s;
      CountAll(s[1..], f);
    }
  }

  lemma {:induction false} CountNone<T>(s: seq<T>, f: T -> bool)
    requires forall x :: x in s ==> !f(x)
    ensures CountIf(s, f) == 0
  {
    if s != [] {
      assert s[0] in s && forall x :: x in s[1..] ==> x in s;
      CountNone(s[1..], f);
    }
  }
}
