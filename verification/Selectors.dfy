/** `matches` and `compact` of pr_ci.py: the order on test selectors and its minimal elements. */
module Selectors {
  import opened Sorting

  /** The selector picks the node: the file, declaration or parameter case itself, or one inside it. */
  predicate Matches(selected: string, node: string) {
    node == selected || selected + "::" <= node || selected + "[" <= node
  }

  /** `s.count("::")`, without overlaps. */
  function Separators(s: string): nat {
    if |s| < 2 then 0 else if s[..2] == "::" then 1 + Separators(s[2..]) else Separators(s[1..])
  }

  /** The sort key `(s.count("::"), s)`. */
  predicate ByDepth(a: string, b: string) {
    Separators(a) < Separators(b) || (Separators(a) == Separators(b) && Leq(a, b))
  }

  predicate Covered(selectors: set<string>, node: string) {
    exists s | s in selectors :: Matches(s, node)
  }

  /** The selectors that no other selector of the set matches. */
  function Minimal(selectors: set<string>): set<string> {
    set s | s in selectors && forall t | t in selectors :: Matches(t, s) ==> t == s
  }

  lemma MatchesPrefix(a: string, b: string)
    requires Matches(a, b)
    ensures a <= b && (a != b ==> |a| < |b|)
  {
  }

  /** The string picks the node: as itself, as a file or declaration above it, or as its name without
      the parameters. */
  ghost predicate Picks(s: string, node: string) {
    node == s || (exists x :: node == s + "::" + x) || exists x :: node == s + "[" + x
  }

  lemma MatchesPicks(s: string, node: string)
    ensures Matches(s, node) <==> Picks(s, node)
  {
    if s + "::" <= node { assert node == s + "::" + node[|s| + 2..]; }
    if s + "[" <= node { assert node == s + "[" + node[|s| + 1..]; }
  }

  /** Some selector of the list picks the node. */
  ghost predicate Picked(selectors: set<string>, node: string) {
    exists s :: s in selectors && Picks(s, node)
  }

  lemma CoveredPicked(selectors: set<string>, node: string)
    ensures Covered(selectors, node) <==> Picked(selectors, node)
  {
    hide Matches, Picks;
    if s :| s in selectors && Matches(s, node) { MatchesPicks(s, node); }
    if s :| s in selectors && Picks(s, node) { MatchesPicks(s, node); }
  }

  /** `matches` is a partial order. */
  lemma MatchesOrder(a: string, b: string, c: string)
    ensures Matches(a, a)
    ensures Matches(a, b) && Matches(b, a) ==> a == b
    ensures Matches(a, b) && Matches(b, c) ==> Matches(a, c)
  {
  }

  lemma {:induction false} SeparatorsOfPrefix(a: string, b: string)
    requires a <= b
    ensures Separators(a) <= Separators(b)
  {
    if |a| >= 2 {
      assert a[..2] == b[..2];
      SeparatorsOfPrefix(a[1..], b[1..]);
      SeparatorsOfPrefix(a[2..], b[2..]);
    }
  }

  /** The sort key puts every selector before those it matches. */
  lemma CoverersFirst(a: string, b: string)
    requires Matches(a, b)
    ensures ByDepth(a, b)
  {
    MatchesPrefix(a, b);
    SeparatorsOfPrefix(a, b);
    PrefixLeq(a, b);
  }

  lemma ByDepthTotal(s: set<string>)
    ensures TotalOn(s, ByDepth)
  {
    LeqTotalOn(s);
  }

  /** Every selector of a set is matched by a minimal one. */
  lemma {:induction false} MinimalBelow(selectors: set<string>, s: string) returns (t: string)
    requires s in selectors
    ensures t in Minimal(selectors) && Matches(t, s)
    decreases |s|
  {
    if s in Minimal(selectors) {
      t := s;
    } else {
      var u :| u in selectors && Matches(u, s) && u != s;
      MatchesPrefix(u, s);
      t := MinimalBelow(selectors, u);
      MatchesOrder(t, u, s);
    }
  }

  /** Compaction keeps exactly the nodes that were selected. */
  lemma MinimalCovers(selectors: set<string>, node: string)
    ensures Covered(Minimal(selectors), node) <==> Covered(selectors, node)
  {
    if Covered(selectors, node) {
      var s :| s in selectors && Matches(s, node);
      var t := MinimalBelow(selectors, s);
      MatchesOrder(t, s, node);
    }
  }

  ghost predicate Antichain(selectors: set<string>) {
    forall s, t :: s in selectors && t in selectors && Matches(s, t) ==> s == t
  }

  /** The minimal selectors are an antichain, and compacting twice changes nothing. */
  lemma MinimalAntichain(selectors: set<string>)
    ensures Antichain(Minimal(selectors)) && Minimal(Minimal(selectors)) == Minimal(selectors)
  {
  }

  ghost predicate CoversSet(selectors: set<string>, others: set<string>) {
    forall s :: s in others ==> Covered(selectors, s)
  }

  lemma CoversAll(selectors: set<string>, others: set<string>, node: string)
    requires CoversSet(selectors, others) && Covered(others, node)
    ensures Covered(selectors, node)
  {
  }

  /** Two sets of selectors that cover each other compact to the same antichain. */
  lemma CompactionUnique(a: set<string>, b: set<string>)
    requires CoversSet(a, b) && CoversSet(b, a)
    ensures Minimal(a) == Minimal(b)
  {
    forall s | s in Minimal(a) ensures s in Minimal(b) { MinimalTransfers(a, b, s); }
    forall s | s in Minimal(b) ensures s in Minimal(a) { MinimalTransfers(b, a, s); }
  }

  lemma MinimalTransfers(a: set<string>, b: set<string>, s: string)
    requires CoversSet(a, b) && CoversSet(b, a) && s in Minimal(a)
    ensures s in Minimal(b)
  {
    var t :| t in b && Matches(t, s);
    var s' :| s' in a && Matches(s', t);
    MatchesOrder(s', t, s);
    MatchesOrder(t, s, t);
    assert s' == s && t == s;
    forall u | u in b && Matches(u, s) ensures u == s {
      var v :| v in a && Matches(v, u);
      MatchesOrder(v, u, s);
      MatchesOrder(u, s, u);
    }
  }

  /** An antichain of selectors of the set that covers the set is the compaction: there is only one. */
  lemma OnlyCompaction(selectors: set<string>, chosen: set<string>)
    requires chosen <= selectors && Antichain(chosen) && CoversSet(chosen, selectors)
    ensures chosen == Minimal(selectors)
  {
  }

  method Compact(selectors: set<string>) returns (r: seq<string>)
    ensures r == Sorted(Minimal(selectors))
  {
    hide Leq, Matches, Minimal, Separators, ByDepth, Ascending, TotalOn;
    ByDepthTotal(selectors);
    var order := SortSet(selectors, ByDepth);
    var result: seq<string> := [];
    NothingMinimal();
    assert Elements(order[..0]) == {} == Elements(result);
    for i := 0 to |order|
      invariant Elements(result) == Minimal(Elements(order[..i]))
    {
      var value := order[i];
      assert forall s :: s in result <==> s in Elements(result);
      if !exists existing | existing in result :: Matches(existing, value) {
        ElementsPlus(result, value);
        result := result + [value];
      }
      CompactStep(order, i);
    }
    assert order[..|order|] == order;
    r := Sorted(Elements(result));
  }

  lemma NothingMinimal()
    ensures Minimal({}) == {}
  {
  }

  lemma ElementsPlus(s: seq<string>, x: string)
    ensures Elements(s + [x]) == Elements(s) + {x}
  {
  }

  lemma SeenNext(order: seq<string>, i: nat)
    requires i < |order|
    ensures Elements(order[..i + 1]) == Elements(order[..i]) + {order[i]}
  {
  }

  /** A selector later in the order joins the minimal ones unless one of them matches it; none is displaced. */
  lemma CompactStep(order: seq<string>, i: nat)
    requires i < |order| && Ascending(order, ByDepth)
    ensures var seen, value := Elements(order[..i]), order[i];
            Minimal(Elements(order[..i + 1])) ==
              Minimal(seen) + if exists s :: s in Minimal(seen) && Matches(s, value) then {} else {value}
  {
    var seen, value := Elements(order[..i]), order[i];
    SeenNext(order, i);
    var all := seen + {value};
    forall x | x in seen ensures !Matches(value, x) && x != value {
      var j :| 0 <= j < i && order[j] == x;
      assert ByDepth(x, value);
      if Matches(value, x) {
        CoverersFirst(value, x);
        LeqAntisymmetricUnless(x, value);
      }
    }
    if exists s :: s in seen && Matches(s, value) {
      var s :| s in seen && Matches(s, value);
      var t := MinimalBelow(seen, s);
      MatchesOrder(t, s, value);
    }
  }

  lemma LeqAntisymmetricUnless(a: string, b: string)
    requires ByDepth(a, b) && ByDepth(b, a)
    ensures a == b
  {
    LeqAntisymmetric(a, b);
  }
}
