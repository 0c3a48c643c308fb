/**
 The step intervals of a job in `measure` of optimization_measurements.py.  Time stamps are whole
 seconds, and `None` is a missing one.
 */
module Intervals {
  import opened Results
  import opened Sorting

  datatype Interval = Interval(first: int, last: int)

  datatype Step = Step(number: int, started: Option<int>, completed: Option<int>, category: string)

  /** `spared` says that the job was cancelled or skipped. */
  datatype Job = Job(created: Option<int>, started: Option<int>, completed: Option<int>, spared: bool, steps: seq<Step>)

  datatype Measured = Measured(queue: Option<int>, seconds: Option<int>, phases: map<string, int>,
      unattributed: Option<int>)

  // ----- Sorted intervals -----

  predicate Before(a: Interval, b: Interval) {
    a.first < b.first || (a.first == b.first && a.last <= b.last)
  }

  ghost predicate Ordered(s: seq<Interval>) {
    InOrder(s, Before)
  }

  predicate Positive(s: seq<Interval>) {
    forall x :: x in s ==> x.first < x.last
  }

  predicate Apart(a: Interval, b: Interval) {
    a.last <= b.first || b.last <= a.first
  }

  predicate Disjoint(s: seq<Interval>) {
    forall i, j :: 0 <= i < j < |s| ==> Apart(s[i], s[j])
  }

  function Length(s: seq<Interval>): int {
    if s == [] then 0 else s[0].last - s[0].first + Length(s[1..])
  }

  lemma {:induction false} InsertFacts(x: Interval, s: seq<Interval>)
    ensures forall y :: y in Insert(x, s, Before) <==> y == x || y in s
    ensures Length(Insert(x, s, Before)) == x.last - x.first + Length(s)
    ensures Ordered(s) ==> Ordered(Insert(x, s, Before))
  {
    hide Disjoint, Ordered, Length, Apart;
    PrependFacts(x, s);
    if s != [] {
      var tail := s[1..];
      assert s == [s[0]] + tail;
      PrependFacts(s[0], tail);
      if !Before(x, s[0]) {
        InsertFacts(x, tail);
        PrependFacts(s[0], Insert(x, tail, Before));
      }
    }
  }

  lemma {:induction false} InsertDisjoint(x: Interval, s: seq<Interval>)
    ensures Disjoint(Insert(x, s, Before)) <==> Disjoint(s) && forall y :: y in s ==> Apart(x, y)
  {
    hide Disjoint, Ordered, Length, Before;
    PrependFacts(x, s);
    if s != [] && !Before(x, s[0]) {
      var tail, rest := s[1..], Insert(x, s[1..], Before);
      assert s == [s[0]] + tail;
      InsertDisjoint(x, tail);
      InsertFacts(x, tail);
      PrependFacts(s[0], tail);
      PrependFacts(s[0], rest);
      assert x in rest && forall y :: y in tail ==> y in rest;
      assert (forall y :: y in rest ==> Apart(s[0], y)) <==> Apart(s[0], x) && forall y :: y in tail ==> Apart(s[0], y);
      assert (forall y :: y in s ==> Apart(x, y)) <==> Apart(x, s[0]) && forall y :: y in tail ==> Apart(x, y);
    }
  }

  lemma PrependFacts(x: Interval, s: seq<Interval>)
    ensures forall y :: y in [x] + s <==> y == x || y in s
    ensures Length([x] + s) == x.last - x.first + Length(s)
    ensures Ordered([x] + s) <==> Ordered(s) && forall y :: y in s ==> Before(x, y)
    ensures Disjoint([x] + s) <==> Disjoint(s) && forall y :: y in s ==> Apart(x, y)
  {
  }

  lemma {:induction false} SortFacts(s: seq<Interval>)
    ensures Ordered(SortList(s, Before)) && Length(SortList(s, Before)) == Length(s)
    ensures forall y :: y in SortList(s, Before) <==> y in s
    ensures Disjoint(SortList(s, Before)) <==> Disjoint(s)
  {
    hide Disjoint, Ordered, Length, Before, Apart, Insert;
    if s == [] {
      NoIntervals();
    } else {
      SortFacts(s[1..]);
      InsertFacts(s[0], SortList(s[1..], Before));
      InsertDisjoint(s[0], SortList(s[1..], Before));
      PrependFacts(s[0], s[1..]);
      assert s == [s[0]] + s[1..];
    }
  }

  lemma NoIntervals()
    ensures Ordered([]) && Disjoint([])
  {
  }

  /** Comparing neighbours in the sorted list is enough. */
  predicate NeighboursApart(s: seq<Interval>) {
    forall i :: 0 <= i < |s| - 1 ==> s[i].last <= s[i + 1].first
  }

  lemma {:induction false} NeighboursSuffice(s: seq<Interval>)
    requires Ordered(s) && Positive(s)
    ensures NeighboursApart(s) <==> Disjoint(s)
    decreases |s|
  {
    if Disjoint(s) {
      forall i | 0 <= i < |s| - 1 ensures s[i].last <= s[i + 1].first {
        assert Apart(s[i], s[i + 1]) && Before(s[i], s[i + 1]) && s[i] in s && s[i + 1] in s;
      }
    }
    if NeighboursApart(s) {
      forall i, j | 0 <= i < j < |s| ensures Apart(s[i], s[j]) {
        NeighboursReach(s, i, j);
      }
    }
  }

  lemma {:induction false} NeighboursReach(s: seq<Interval>, i: nat, j: nat)
    requires i < j < |s| && Positive(s) && NeighboursApart(s)
    ensures s[i].last <= s[j].first
    decreases j
  {
    if i + 1 < j {
      NeighboursReach(s, i, j - 1);
      assert s[j - 1] in s && s[j - 1].last <= s[j - 1 + 1].first;
    }
  }

  lemma {:induction false} SumFits(s: seq<Interval>, from: int, to: int)
    requires NeighboursApart(s) && Positive(s) && from <= to
    requires forall x :: x in s ==> from <= x.first && x.last <= to
    ensures Length(s) <= to - from
    decreases |s|
  {
    if s != [] {
      var tail := s[1..];
      assert s[0] in s;
      forall x | x in tail ensures s[0].last <= x.first && x.last <= to {
        var j :| 0 <= j < |tail| && tail[j] == x;
        NeighboursReach(s, 0, j + 1);
      }
      forall i | 0 <= i < |tail| - 1 ensures tail[i].last <= tail[i + 1].first {
        assert s[i + 1].last <= s[i + 1 + 1].first;
      }
      SumFits(tail, s[0].last, to);
    }
  }

  // ----- A job -----

  predicate Timed(started: Option<int>, completed: Option<int>) {
    started.Some? && completed.Some?
  }

  /** `elapsed`, where it does not raise. */
  function Elapsed(started: Option<int>, completed: Option<int>): Option<int> {
    if Timed(started, completed) then Some(completed.value - started.value) else None
  }

  predicate Inverted(started: Option<int>, completed: Option<int>) {
    Timed(started, completed) && completed.value < started.value
  }

  predicate Busy(step: Step) {
    Timed(step.started, step.completed) && step.started.value < step.completed.value
  }

  /** Zero-length steps take no interval. */
  function Spans(steps: seq<Step>): seq<Interval> {
    if steps == [] then []
    else
      var last := steps[|steps| - 1];
      Spans(steps[..|steps| - 1]) + if Busy(last) then [Interval(last.started.value, last.completed.value)] else []
  }

  function Seconds(steps: seq<Step>): int {
    if steps == [] then 0
    else
      var last := steps[|steps| - 1];
      Seconds(steps[..|steps| - 1])
          + if Timed(last.started, last.completed) then last.completed.value - last.started.value else 0
  }

  /** The seconds of the steps of one phase. */
  function SecondsOf(steps: seq<Step>, category: string): int {
    if steps == [] then 0
    else
      var last := steps[|steps| - 1];
      SecondsOf(steps[..|steps| - 1], category)
      + if last.category == category && Timed(last.started, last.completed)
        then last.completed.value - last.started.value else 0
  }

  /** `phases.get(category, 0.0)` */
  function Phase(phases: map<string, int>, category: string): int {
    if category in phases then phases[category] else 0
  }

  ghost predicate ByPhase(phases: map<string, int>, steps: seq<Step>) {
    forall category :: Phase(phases, category) == SecondsOf(steps, category)
  }

  predicate Inside(step: Step, job: Job) {
    Busy(step) ==>
      && job.started.Some? && job.started.value <= step.started.value
      && (job.completed.Some? ==> step.completed.value <= job.completed.value)
  }

  predicate ValidStep(step: Step, job: Job) {
    step.number >= 1 && !Inverted(step.started, step.completed) && Inside(step, job)
  }

  function NumbersOf(steps: seq<Step>): (numbers: seq<int>)
    ensures |numbers| == |steps| && forall i :: 0 <= i < |numbers| ==> numbers[i] == steps[i].number
  {
    seq(|steps|, i requires 0 <= i < |steps| => steps[i].number)
  }

  /** What is accepted: numbered steps inside the job, of which no two overlap, and a job that did
      not start before it was created. */
  predicate Measurable(job: Job) {
    && Distinct(NumbersOf(job.steps))
    && (forall step :: step in job.steps ==> ValidStep(step, job))
    && (Inverted(job.started, job.completed) ==> job.spared && job.steps == [])
    && Disjoint(Spans(job.steps))
    && !Inverted(job.created, job.started)
  }

  lemma {:induction false} SpansFacts(steps: seq<Step>, job: Job)
    requires forall step :: step in steps ==> ValidStep(step, job)
    ensures Positive(Spans(steps)) && Length(Spans(steps)) == Seconds(steps)
    ensures forall x :: x in Spans(steps) ==>
      job.started.Some? && job.started.value <= x.first && (job.completed.Some? ==> x.last <= job.completed.value)
  {
    if steps != [] {
      var last := steps[|steps| - 1];
      assert last in steps && ValidStep(last, job);
      SpansFacts(steps[..|steps| - 1], job);
      AppendLength(Spans(steps[..|steps| - 1]), Spans(steps));
    }
  }

  lemma {:induction false} AppendLength(s: seq<Interval>, t: seq<Interval>)
    requires s <= t && |t| <= |s| + 1
    ensures Length(t) == Length(s) + if |t| == |s| then 0 else t[|s|].last - t[|s|].first
  {
    if s != [] {
      AppendLength(s[1..], t[1..]);
    } else if t != [] {
      assert t[1..] == [];
    }
  }

  /** The steps of a measurable job with known times take no more time than the job, so the check
      that follows the overlap check in the source never fails. */
  lemma StepsFitJob(job: Job)
    requires (forall step :: step in job.steps ==> ValidStep(step, job)) && Disjoint(Spans(job.steps))
              && Timed(job.started, job.completed)
    ensures Inverted(job.started, job.completed) || Seconds(job.steps) <= job.completed.value - job.started.value
  {
    if !Inverted(job.started, job.completed) {
      var spans := Spans(job.steps);
      SpansFacts(job.steps, job);
      SortFacts(spans);
      NeighboursSuffice(SortList(spans, Before));
      SumFits(SortList(spans, Before), job.started.value, job.completed.value);
    }
  }

  // ----- Phases -----

  ghost function Sum(m: map<string, int>): int
    decreases |m|
  {
    if m == map[] then 0
    else
      var k :| k in m;
      m[k] + Sum(m - {k})
  }

  lemma {:induction false} SumWithout(m: map<string, int>, k: string)
    requires k in m
    ensures Sum(m) == m[k] + Sum(m - {k})
    decreases |m|
  {
    var p :| p in m && Sum(m) == m[p] + Sum(m - {p});
    if p != k {
      assert |m - {p}| < |m| && |m - {k}| < |m|;
      SumWithout(m - {p}, k);
      SumWithout(m - {k}, p);
      assert m - {p} - {k} == m - {k} - {p};
    }
  }

  lemma SumAdded(m: map<string, int>, k: string, v: int)
    ensures Sum(m[k := Phase(m, k) + v]) == Sum(m) + v
  {
    var n := m[k := Phase(m, k) + v];
    SumWithout(n, k);
    if k in m {
      SumWithout(m, k);
      assert n - {k} == m - {k};
    } else {
      assert n - {k} == m;
    }
  }

  method Total(phases: map<string, int>) returns (total: int)
    ensures total == Sum(phases)
  {
    total := 0;
    var rest := phases;
    while rest != map[]
      invariant total + Sum(rest) == Sum(phases)
      decreases |rest|
    {
      assert rest.Keys != {};
      var k :| k in rest;
      SumWithout(rest, k);
      total := total + rest[k];
      rest := rest - {k};
    }
  }

  /** What the loop knows after some steps. */
  ghost predicate Attributed(steps: seq<Step>, job: Job, numbers: set<int>, intervals: seq<Interval>,
      phases: map<string, int>)
  {
    && Distinct(NumbersOf(steps)) && numbers == Elements(NumbersOf(steps))
    && (forall step :: step in steps ==> ValidStep(step, job))
    && intervals == Spans(steps) && Sum(phases) == Seconds(steps) && ByPhase(phases, steps)
  }

  lemma PhaseAdded(phases: map<string, int>, steps: seq<Step>, step: Step)
    requires ByPhase(phases, steps)
    ensures ByPhase(if Timed(step.started, step.completed)
                    then phases[step.category :=
                      Phase(phases, step.category) + (step.completed.value - step.started.value)]
                    else phases, steps + [step])
  {
    var all := steps + [step];
    assert all[..|all| - 1] == steps;
    forall category
      ensures SecondsOf(all, category) == SecondsOf(steps, category)
        + if step.category == category && Timed(step.started, step.completed)
          then step.completed.value - step.started.value else 0
    {
    }
  }

  lemma AttributedStep(steps: seq<Step>, job: Job, numbers: set<int>, intervals: seq<Interval>,
      phases: map<string, int>, step: Step)
    requires Attributed(steps, job, numbers, intervals, phases) && step.number !in numbers && ValidStep(step, job)
    ensures Attributed(steps + [step], job, numbers + {step.number},
                 if Busy(step) then intervals + [Interval(step.started.value, step.completed.value)] else intervals,
                 if Timed(step.started, step.completed)
                 then phases[step.category :=
                   Phase(phases, step.category) + (step.completed.value - step.started.value)]
                 else phases)
  {
    hide Distinct, Elements, ValidStep, ByPhase, Spans, Seconds, Sum, Phase;
    PhaseAdded(phases, steps, step);
    SpansAdded(steps, step);
    assert NumbersOf(steps + [step]) == NumbersOf(steps) + [step.number];
    DistinctAppend(NumbersOf(steps), step.number);
    if Timed(step.started, step.completed) {
      SumAdded(phases, step.category, step.completed.value - step.started.value);
    }
  }

  lemma SpansAdded(steps: seq<Step>, step: Step)
    ensures Spans(steps + [step])
         == Spans(steps) + if Busy(step) then [Interval(step.started.value, step.completed.value)] else []
    ensures Seconds(steps + [step])
         == Seconds(steps)
            + if Timed(step.started, step.completed) then step.completed.value - step.started.value else 0
  {
    assert (steps + [step])[..|steps|] == steps;
  }

  lemma StepRefused(steps: seq<Step>, i: nat, job: Job, numbers: set<int>)
    requires i < |steps| && numbers == Elements(NumbersOf(steps[..i]))
    requires steps[i].number in numbers || !ValidStep(steps[i], job)
    ensures !(Distinct(NumbersOf(steps)) && forall step :: step in steps ==> ValidStep(step, job))
  {
  }

  lemma AttributedMeans(steps: seq<Step>, job: Job, numbers: set<int>, intervals: seq<Interval>,
      phases: map<string, int>)
    requires Attributed(steps, job, numbers, intervals, phases)
    ensures Distinct(NumbersOf(steps)) && (forall step :: step in steps ==> ValidStep(step, job))
    ensures intervals == Spans(steps) && Sum(phases) == Seconds(steps) && ByPhase(phases, steps)
    ensures numbers == Elements(NumbersOf(steps))
  {
  }

  lemma NothingAttributed(job: Job)
    ensures Attributed([], job, {}, [], map[])
  {
  }

  /** The loop over the steps. */
  method Attribute(job: Job) returns (ok: bool, intervals: seq<Interval>, phases: map<string, int>)
    ensures ok <==> Distinct(NumbersOf(job.steps)) && forall step :: step in job.steps ==> ValidStep(step, job)
    ensures ok ==> intervals == Spans(job.steps) && Sum(phases) == Seconds(job.steps) && ByPhase(phases, job.steps)
  {
    hide Attributed, Distinct, Elements, Spans, Seconds, Sum, ByPhase;
    var numbers: set<int> := {};
    intervals, phases := [], map[];
    NothingAttributed(job);
    assert job.steps[..0] == [];
    for i := 0 to |job.steps|
      invariant Attributed(job.steps[..i], job, numbers, intervals, phases)
    {
      var step := job.steps[i];
      AttributedMeans(job.steps[..i], job, numbers, intervals, phases);
      if step.number in numbers || step.number < 1 || Inverted(step.started, step.completed) || !Inside(step, job) {
        StepRefused(job.steps, i, job, numbers);
        return false, intervals, phases;
      }
      AttributedStep(job.steps[..i], job, numbers, intervals, phases, step);
      assert job.steps[..i + 1] == job.steps[..i] + [step];
      numbers := numbers + {step.number};
      if Busy(step) {
        intervals := intervals + [Interval(step.started.value, step.completed.value)];
      }
      var seconds := Elapsed(step.started, step.completed);
      if seconds.Some? {
        phases := phases[step.category := Phase(phases, step.category) + seconds.value];
      }
    }
    assert job.steps[..|job.steps|] == job.steps;
    AttributedMeans(job.steps, job, numbers, intervals, phases);
    ok := true;
  }

  method Measure(job: Job) returns (r: Option<Measured>)
    ensures r.Some? <==> Measurable(job)
    ensures r.Some? ==> ByPhase(r.value.phases, job.steps) && Sum(r.value.phases) == Seconds(job.steps)
    ensures r.Some? ==> r.value.queue == Elapsed(job.created, job.started)
    ensures r.Some? ==>
              r.value.seconds
              == if Inverted(job.started, job.completed) then None else Elapsed(job.started, job.completed)
    ensures r.Some? ==>
              r.value.unattributed
              == if r.value.seconds.None? then None else Some(r.value.seconds.value - Seconds(job.steps))
    ensures r.Some? && r.value.unattributed.Some? ==> r.value.unattributed.value >= 0
  {
    hide Distinct, Disjoint, Ordered, NeighboursApart, Spans, Seconds, ByPhase;
    var ok, intervals, phases := Attribute(job);
    if !ok {
      return None;
    }
    var inverted := Inverted(job.started, job.completed);
    if inverted && !(job.spared && job.steps == []) {
      return None;
    }
    var seconds := if inverted then None else Elapsed(job.started, job.completed);
    SpansFacts(job.steps, job);
    SortFacts(intervals);
    NeighboursSuffice(SortList(intervals, Before));
    if !NeighboursApart(SortList(intervals, Before)) {
      return None;
    }
    var total := Total(phases);
    if seconds.Some? {
      StepsFitJob(job);
    }
    assert seconds.Some? ==> total <= seconds.value;
    if Inverted(job.created, job.started) {
      return None;
    }
    var rest := if seconds.Some? then Some(seconds.value - total) else None;
    r := Some(Measured(Elapsed(job.created, job.started), seconds, phases, rest));
  }
}
