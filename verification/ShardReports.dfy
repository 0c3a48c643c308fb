/** What a JUnit report says: its cases and suites at any depth, its counters, and its outcomes. */
module ShardReports {
  import opened Results
  import opened Sorting
  import opened ShardPlan
  import opened ShardEvidence

  // ----- nesting

  /** The case stands in the suite, or in one nested in it. */
  ghost predicate InSuite(s: Suite, c: Case) {
    c in s.cases || exists t :: t in s.suites && InSuite(t, c)
  }

  ghost predicate Within(s: Suite, t: Suite) {
    t == s || exists u :: u in s.suites && Within(u, t)
  }

  lemma {:induction false} CasesAtAnyDepth(document: seq<Suite>, c: Case)
    ensures c in CasesOf(document) <==> exists s :: s in document && InSuite(s, c)
    decreases document
  {
    if document != [] {
      CasesAtAnyDepth(document[0].suites, c);
      CasesAtAnyDepth(document[1..], c);
      assert document == [document[0]] + document[1..];
      assert c in CasesIn(document[0]) <==> InSuite(document[0], c);
    }
  }

  lemma {:induction false} SuitesAtAnyDepth(document: seq<Suite>, t: Suite)
    ensures t in SuitesOf(document) <==> exists s :: s in document && Within(s, t)
    decreases document
  {
    if document != [] {
      SuitesAtAnyDepth(document[0].suites, t);
      SuitesAtAnyDepth(document[1..], t);
      assert document == [document[0]] + document[1..];
      assert Within(document[0], t) <==> t == document[0] || t in SuitesOf(document[0].suites);
    }
  }

  // ----- counters

  /** A suite's counters agree exactly when each one that it declares is the number of its cases, or of
      those that failed, erred or were skipped. */
  lemma CountersTell(s: Suite)
    ensures var cases := CasesIn(s);
            CountersAgree(s) <==>
              && (s.tests.Some? ==> s.tests.value == |cases|)
              && (s.failures.Some? ==> s.failures.value == |set i | 0 <= i < |cases| && cases[i].failure|)
              && (s.errors.Some? ==> s.errors.value == |set i | 0 <= i < |cases| && cases[i].error|)
              && (s.skips.Some? ==> s.skips.value == |set i | 0 <= i < |cases| && cases[i].skipped.Some?|)
  {
    var cases := CasesIn(s);
    CountIfPositions(cases, IsFailure, set i | 0 <= i < |cases| && cases[i].failure);
    CountIfPositions(cases, IsError, set i | 0 <= i < |cases| && cases[i].error);
    CountIfPositions(cases, IsSkip, set i | 0 <= i < |cases| && cases[i].skipped.Some?);
  }

  // ----- outcomes

  /** A valid case can be read back from its node and its outcome. */
  function CaseOf(node: string, o: Outcome): Case {
    Case(node, o.status == Failure, o.status == Error, if o.status == Skipped then Some(o.reason) else None)
  }

  lemma OutcomeFaithful(c: Case)
    requires Kinds(c) <= 1
    ensures CaseOf(c.node, OutcomeOf(c)) == c
    ensures OutcomeOf(c).status == Passed <==> !c.failure && !c.error && c.skipped.None?
  {
  }

  /** An accepted report: each case, at whatever depth, is valid and neither failed nor erred, no node
      is reported twice, the nodes are exactly the expected ones, and all counters are right. */
  lemma AcceptedReport(value: Plan, e: Evidence, index: Option<int>, purpose: Purpose, rules: Rules, c: Case)
    requires Accepted(value, e, index, purpose, rules)
    ensures (exists s :: s in e.document && InSuite(s, c)) ==>
              !c.failure && !c.error && Kinds(c) <= 1 && c.node in Expected(value, index)
    ensures forall node :: node in Expected(value, index) ==>
              exists d :: d in CasesOf(e.document) && d.node == node
    ensures forall t :: (exists s :: s in e.document && Within(s, t)) ==> CountersAgree(t)
  {
    hide ValidPlan, Expected, CountersAgree, CoreNode, InSuite, Within, CasesOf, SuitesOf;
    CasesAtAnyDepth(e.document, c);
    if c in CasesOf(e.document) {
      assert c.node in CaseNodes(e.document);
    }
    forall t | exists s :: s in e.document && Within(s, t) ensures CountersAgree(t) {
      SuitesAtAnyDepth(e.document, t);
    }
    forall node | node in Expected(value, index) ensures exists d :: d in CasesOf(e.document) && d.node == node {
      assert node in Elements(Expected(value, index));
    }
  }
}
