/** What the receipt protocol guarantees over whole runs, and where it promises less. */
module CoordinatorTheorems {
  import opened Results
  import opened Sorting
  import opened Coordinator
  import opened CoordinatorFacts

  /** The remote after the first n operations. */
  function At(cs: seq<(Command, nat)>, n: nat): World
    requires n <= |cs|
  {
    Operate(START, cs[..n])
  }

  lemma {:induction false} OperateLast(w: World, cs: seq<(Command, nat)>, c: (Command, nat))
    ensures Operate(w, cs + [c]) == Execute(Operate(w, cs), c.0, c.1)
    decreases |cs|
  {
    hide Execute;
    if cs == [] {
      assert [c][1..] == [] && cs + [c] == [c];
    } else {
      assert (cs + [c])[1..] == cs[1..] + [c];
      OperateLast(Execute(w, cs[0].0, cs[0].1), cs[1..], c);
    }
  }

  lemma AtNext(cs: seq<(Command, nat)>, n: nat)
    requires n < |cs|
    ensures At(cs, n + 1) == Execute(At(cs, n), cs[n].0, cs[n].1)
  {
    hide Execute, Operate;
    assert cs[..n + 1] == cs[..n] + [cs[n]];
    OperateLast(START, cs[..n], cs[n]);
  }

  lemma AtInv(cs: seq<(Command, nat)>)
    ensures forall n :: 0 <= n <= |cs| ==> Inv(At(cs, n))
  {
    hide Inv, Operate;
    forall n | 0 <= n <= |cs| ensures Inv(At(cs, n)) {
      StartInv();
      OperateKeeps(START, cs[..n]);
    }
  }

  lemma AtEnd(cs: seq<(Command, nat)>)
    ensures At(cs, |cs|) == Operate(START, cs) && At(cs, 0) == START
  {
    assert cs[..|cs|] == cs;
  }

  // ----- What one operation adds -----

  lemma {:induction false} LogGrows(w: World, es: seq<Effect>)
    ensures w.log <= ApplyAll(w, es).log
    ensures forall r :: Sent(r) in ApplyAll(w, es).log ==> Sent(r) in w.log || Send(r) in es
    ensures forall i :: |w.log| <= i < |ApplyAll(w, es).log| && ApplyAll(w, es).log[i].Sent? ==>
      Send(ApplyAll(w, es).log[i].request) in es
    decreases |es|
  {
    if es != [] {
      LogGrows(Apply(w, es[0]), es[1..]);
    }
  }

  lemma {:induction false} ReceiptsGrow(w: World, es: seq<Effect>, c: int)
    requires AllAllowed(w, es) && c in w.receipts
    ensures var v := ApplyAll(w, es);
      c in v.receipts && SameKey(v.receipts[c].request, w.receipts[c].request)
      && w.receipts[c].request.generation <= v.receipts[c].request.generation
    decreases |es|
  {
    if es != [] {
      ReceiptsGrow(Apply(w, es[0]), es[1..], c);
    }
  }

  lemma {:induction false} CutAllowed(w: World, es: seq<Effect>, steps: nat)
    requires AllAllowed(w, es)
    ensures AllAllowed(w, Cut(es, steps))
    decreases |es|
  {
    hide Allowed, Apply;
    if es != [] && steps > 0 {
      CutAllowed(Apply(w, es[0]), es[1..], steps - 1);
      assert Cut(es, steps)[0] == es[0] && Cut(es, steps)[1..] == Cut(es[1..], steps - 1);
    }
  }

  /** A command sends only what a dispatch has just decided on: generation 0 of a candidate
      without a receipt, or the generation after a failed one. */
  ghost predicate Decides(w: World, x: Request) {
    || (x.generation == 0 && forall c :: c in w.receipts ==> !SameKey(w.receipts[c].request, x))
    || (x.generation > 0
        && exists c :: c in w.receipts && w.receipts[c].request == Earlier(x) && Retryable(w.receipts[c].status))
  }

  lemma CommandSends(w: World, c: Command, x: Request)
    requires Possible(w, c) && Send(x) in Effects(w, c)
    ensures Decides(w, x)
  {
    if c.Settle? {
      SettleSendsNothing(w, c.run, c.visible, c.marks, x);
    } else if c.Dispatch? {
      hide Recent;
      var existing := Existing(w, c.sha, c.profile);
      assert forall d :: d in w.receipts && SameKey(w.receipts[d].request, Request(c.sha, c.profile, 0)) ==>
               d in existing;
      if existing != {} {
        var check := The(existing);
        assert check in existing;
      }
    }
  }

  lemma SettleSendsNothing(w: World, run: int, visible: set<int>, marks: seq<Status>, x: Request)
    requires run in w.runs
    ensures Send(x) !in SettleEffects(w, run, visible, marks)
  {
  }

  /** One operation: the log is extended, receipts stay and advance, and what is sent was decided. */
  lemma StepFacts(w: World, c: Command, steps: nat)
    requires Inv(w)
    ensures w.log <= Execute(w, c, steps).log
    ensures forall i :: |w.log| <= i < |Execute(w, c, steps).log| && Execute(w, c, steps).log[i].Sent? ==>
      Decides(w, Execute(w, c, steps).log[i].request)
    ensures forall d :: d in w.receipts ==>
      && d in Execute(w, c, steps).receipts
      && SameKey(Execute(w, c, steps).receipts[d].request, w.receipts[d].request)
      && w.receipts[d].request.generation <= Execute(w, c, steps).receipts[d].request.generation
  {
    hide Inv, Effects, Decides, AllAllowed;
    if Possible(w, c) && !c.Elsewhere? {
      var es := Effects(w, c);
      CommandAllowed(w, c);
      CutAllowed(w, es, steps);
      var next := ApplyAll(w, Cut(es, steps));
      LogGrows(w, Cut(es, steps));
      forall i | |w.log| <= i < |next.log| && next.log[i].Sent? ensures Decides(w, next.log[i].request) {
        CommandSends(w, c, next.log[i].request);
      }
      forall d | d in w.receipts
        ensures d in next.receipts && SameKey(next.receipts[d].request, w.receipts[d].request)
        ensures w.receipts[d].request.generation <= next.receipts[d].request.generation
      {
        ReceiptsGrow(w, Cut(es, steps), d);
      }
    }
  }

  /** Between two moments of a run the log is extended and receipts stay and advance. */
  lemma {:induction false} RunGrows(cs: seq<(Command, nat)>, m: nat, n: nat)
    requires m <= n <= |cs|
    ensures At(cs, m).log <= At(cs, n).log
    ensures forall d :: d in At(cs, m).receipts ==>
      && d in At(cs, n).receipts
      && SameKey(At(cs, n).receipts[d].request, At(cs, m).receipts[d].request)
      && At(cs, m).receipts[d].request.generation <= At(cs, n).receipts[d].request.generation
    decreases n
  {
    hide Inv, Execute, At;
    if m < n {
      RunGrows(cs, m, n - 1);
      AtInv(cs);
      AtNext(cs, n - 1);
      StepFacts(At(cs, n - 1), cs[n - 1].0, cs[n - 1].1);
    }
  }

  /** The operation that sent the event at position i of the log, and what it decided. */
  lemma {:induction false} SentBy(cs: seq<(Command, nat)>, n: nat, i: nat) returns (m: nat)
    requires n <= |cs| && i < |At(cs, n).log| && At(cs, n).log[i].Sent?
    ensures m < n && |At(cs, m).log| <= i < |At(cs, m + 1).log|
    ensures Decides(At(cs, m), At(cs, n).log[i].request)
    decreases n
  {
    hide Inv, Execute, Decides, Operate;
    m := 0;
    AtEnd(cs);
    if n > 0 {
      RunGrows(cs, n - 1, n);
      if i < |At(cs, n - 1).log| {
        m := SentBy(cs, n - 1, i);
      } else {
        AtInv(cs);
        AtNext(cs, n - 1);
        StepFacts(At(cs, n - 1), cs[n - 1].0, cs[n - 1].1);
        m := n - 1;
      }
    }
  }

  // ----- At most once -----

  /** No request is dispatched twice, whatever crashes and whatever the remote answers. */
  lemma DispatchedOnce(cs: seq<(Command, nat)>, i: nat, j: nat)
    requires i < j < |Operate(START, cs).log|
    requires Operate(START, cs).log[i].Sent?
    ensures Operate(START, cs).log[j] != Operate(START, cs).log[i]
  {
    hide Operate, Grounded;
    OperateKeeps(START, cs);
    var log := Operate(START, cs).log;
    assert Justified(log, j);
    assert log[i] == log[..j][i];
  }

  /** A candidate has at most one receipt for each profile. */
  lemma OneReceipt(cs: seq<(Command, nat)>, c: int, d: int)
    requires c in Operate(START, cs).receipts && d in Operate(START, cs).receipts
    requires SameKey(Operate(START, cs).receipts[c].request, Operate(START, cs).receipts[d].request)
    ensures c == d
  {
    hide Operate, Justified, ReceiptOk;
    OperateKeeps(START, cs);
  }

  /**
   An unknown outcome is never sent again.  When the dispatch of r is lost after the first n
   operations, everything that is dispatched for its candidate and profile later comes after a
   completed run that carries r in its title has been authenticated, and after n.
   */
  lemma UnknownNeverResent(cs: seq<(Command, nat)>, n: nat, c: int, i: nat) returns (j: nat, run: int)
    requires n <= |cs| && c in At(cs, n).receipts && Lost(At(cs, n).receipts[c].status)
    requires |At(cs, n).log| <= i < |Operate(START, cs).log| && Operate(START, cs).log[i].Sent?
    requires SameKey(Operate(START, cs).log[i].request, At(cs, n).receipts[c].request)
    ensures |At(cs, n).log| <= j < i && Operate(START, cs).log[j] == Witnessed(At(cs, n).receipts[c].request, run)
    ensures run in Operate(START, cs).runs && Operate(START, cs).runs[run].title == Some(At(cs, n).receipts[c].request)
  {
    hide Operate, Inv, At;
    AtEnd(cs);
    var r, x := At(cs, n).receipts[c].request, At(cs, |cs|).log[i].request;
    var m := SentBy(cs, |cs|, i);
    if m < n { RunGrows(cs, m + 1, n); }
    RunGrows(cs, n, m);
    RunGrows(cs, m, |cs|);
    AtInv(cs);
    run := LostThenSent(At(cs, n), At(cs, m), c, x);
    j :| 0 <= j < |At(cs, m).log| && At(cs, m).log[j] == Witnessed(r, run);
    WitnessedHasTitle(At(cs, |cs|), r, run);
    assert At(cs, |cs|).log[j] == Witnessed(r, run);
    assert forall k :: 0 <= k < |At(cs, n).log| ==> At(cs, m).log[k] == At(cs, n).log[k] != Witnessed(r, run);
  }

  lemma WitnessedHasTitle(w: World, r: Request, run: int)
    requires Inv(w) && Witnessed(r, run) in w.log
    ensures run in w.runs && w.runs[run].title == Some(r)
  {
  }

  /** A lost request has no witness; before its key is sent again it has one. */
  lemma LostThenSent(w: World, v: World, c: int, x: Request) returns (run: int)
    requires Inv(w) && Inv(v) && c in w.receipts && Lost(w.receipts[c].status)
    requires c in v.receipts && SameKey(v.receipts[c].request, w.receipts[c].request)
    requires w.receipts[c].request.generation <= v.receipts[c].request.generation
    requires Decides(v, x) && SameKey(x, w.receipts[c].request)
    ensures Witnessed(w.receipts[c].request, run) in v.log
              && forall any :: Witnessed(w.receipts[c].request, any) !in w.log
  {
    hide Justified, Recorded, Titles, WitnessedOnce, FollowsWitnessed;
    var r := w.receipts[c].request;
    assert ReceiptOk(w.log, w.receipts[c]);
    forall any ensures Witnessed(r, any) !in w.log {
      assert Held(w.receipts, r, any) ==> false by { LostNotHeld(w, c, any); }
    }
    var d :| d in v.receipts && v.receipts[d].request == Earlier(x) && Retryable(v.receipts[d].status);
    assert d == c && ReceiptOk(v.log, v.receipts[c]);
    if v.receipts[c].request.generation == r.generation {
      run := v.receipts[c].run.value;
      assert v.receipts[c].request == r;
    } else {
      var k := r.generation;
      assert v.receipts[c].request.(generation := k) == r;
      assert Finished(v.log, v.receipts[c].request.(generation := k));
      run :| Witnessed(r, run) in v.log;
    }
  }

  lemma LostNotHeld(w: World, c: int, run: int)
    requires Inv(w) && c in w.receipts && Lost(w.receipts[c].status)
    ensures !Held(w.receipts, w.receipts[c].request, run)
  {
    hide Justified, Recorded, Titles, WitnessedOnce, Grounded, FollowsWitnessed, WitnessesHeld;
    assert ReceiptOk(w.log, w.receipts[c]);
  }

  // ----- Generations -----

  /** A dispatch comes after its own pending receipt and after a completed run of every generation
      before it, each with that generation's request in its title. */
  lemma GenerationsInOrder(cs: seq<(Command, nat)>, i: nat, k: nat) returns (run: int)
    requires i < |Operate(START, cs).log| && Operate(START, cs).log[i].Sent?
    requires k < Operate(START, cs).log[i].request.generation
    ensures var w := Operate(START, cs);
      var earlier := w.log[i].request.(generation := k);
      SavedPending(w.log[i].request) in w.log[..i] && Witnessed(earlier, run) in w.log[..i]
      && run in w.runs && w.runs[run].title == Some(earlier)
  {
    hide Operate;
    OperateKeeps(START, cs);
    var w := Operate(START, cs);
    assert Justified(w.log, i);
    assert Finished(w.log[..i], w.log[i].request.(generation := k));
    run :| Witnessed(w.log[i].request.(generation := k), run) in w.log[..i];
    assert Witnessed(w.log[i].request.(generation := k), run) in w.log;
  }

  /** Without any assumption on the remote: the run that a receipt records for the generation
      before its own was authenticated as completed before the generation was dispatched. */
  lemma RecordedRunCompleted(cs: seq<(Command, nat)>, c: int, i: nat) returns (run: int)
    requires c in Operate(START, cs).receipts && Operate(START, cs).receipts[c].request.generation > 0
    requires i < |Operate(START, cs).log| && Operate(START, cs).log[i] == Sent(Operate(START, cs).receipts[c].request)
    ensures Follows(Operate(START, cs).receipts[c], run)
    ensures Witnessed(Earlier(Operate(START, cs).receipts[c].request), run) in Operate(START, cs).log[..i]
  {
    hide Operate, Held;
    OperateKeeps(START, cs);
    var w := Operate(START, cs);
    var r := w.receipts[c].request;
    assert ReceiptOk(w.log, w.receipts[c]) && Justified(w.log, i);
    run :| Follows(w.receipts[c], run) && Witnessed(Earlier(r), run) in w.log;
    assert Finished(w.log[..i], r.(generation := r.generation - 1));
    var seen :| Witnessed(Earlier(r), seen) in w.log[..i];
    assert Witnessed(Earlier(r), seen) in w.log;
  }

  // ----- Is every run of the generation before over? -----

  /** Every run under the request's title is completed. */
  predicate AllCompleted(w: World, r: Request) {
    forall run :: run in w.runs && w.runs[run].title == Some(r) ==> w.runs[run].completed
  }

  /** The same, leaving one run out. */
  predicate OthersCompleted(w: World, r: Request, one: int) {
    forall run :: run in w.runs && run != one && w.runs[run].title == Some(r) ==> w.runs[run].completed
  }

  /** The request's title belongs to one run. */
  predicate TitleUnique(w: World, r: Request) {
    forall a, b :: a in w.runs && b in w.runs && w.runs[a].title == Some(r) && w.runs[b].title == Some(r) ==> a == b
  }

  ghost predicate CompletedAt(cs: seq<(Command, nat)>, n: nat, run: int)
    requires n <= |cs|
  {
    run in At(cs, n).runs && At(cs, n).runs[run].completed
  }

  /** A rerun of a completed run is going on: it was completed once, and not since. */
  ghost predicate Reopened(cs: seq<(Command, nat)>, n: nat, run: int)
    requires n <= |cs|
  {
    exists k :: 0 <= k < n && CompletedAt(cs, k, run) && forall m :: k < m <= n ==> !CompletedAt(cs, m, run)
  }

  lemma {:induction false} WitnessAdded(w: World, es: seq<Effect>, r: Request, run: int)
    ensures ApplyAll(w, es).runs == w.runs
    ensures Witnessed(r, run) in ApplyAll(w, es).log ==> Witnessed(r, run) in w.log || Witness(r, run) in es
    decreases |es|
  {
    if es != [] {
      WitnessAdded(Apply(w, es[0]), es[1..], r, run);
    }
  }

  /** Only a completed run is witnessed. */
  lemma CommandWitnesses(w: World, c: Command, r: Request, run: int)
    requires Possible(w, c) && Witness(r, run) in Effects(w, c)
    ensures run in w.runs && w.runs[run].completed
  {
    if c.Settle? {
      SettleWitnesses(w, c.run, c.visible, c.marks, r, run);
    }
  }

  lemma SettleWitnesses(w: World, run: int, visible: set<int>, marks: seq<Status>, r: Request, seen: int)
    requires run in w.runs && Witness(r, seen) in SettleEffects(w, run, visible, marks)
    ensures seen == run
  {
  }

  lemma WitnessedNow(w: World, c: Command, steps: nat, r: Request, run: int)
    requires Witnessed(r, run) in Execute(w, c, steps).log && Witnessed(r, run) !in w.log
    ensures Execute(w, c, steps).runs == w.runs && run in w.runs && w.runs[run].completed
  {
    hide Effects;
    if Possible(w, c) && !c.Elsewhere? {
      WitnessAdded(w, Cut(Effects(w, c), steps), r, run);
      CommandWitnesses(w, c, r, run);
    }
  }

  /** A run that was authenticated is completed, unless a rerun of it is going on. */
  lemma {:induction false} CompletedUnlessReopened(cs: seq<(Command, nat)>, n: nat, r: Request, run: int)
    requires n <= |cs| && Witnessed(r, run) in At(cs, n).log
    ensures CompletedAt(cs, n, run) <==> !Reopened(cs, n, run)
  {
    hide Execute, At;
    AtEnd(cs);
    if n > 0 {
      AtNext(cs, n - 1);
      if Witnessed(r, run) in At(cs, n - 1).log {
        CompletedUnlessReopened(cs, n - 1, r, run);
      } else {
        WitnessedNow(At(cs, n - 1), cs[n - 1].0, cs[n - 1].1, r, run);
      }
    }
  }

  /**
   When generation g+1 is dispatched, every run titled with g is completed if and only if every
   one but the run that the receipt records is, and no rerun of that one is going on.  So a title
   with one run is not enough by itself, and two runs under it are no failure by themselves.
   */
  lemma PriorRunCompleted(cs: seq<(Command, nat)>, i: nat) returns (n: nat, c: int)
    requires i < |Operate(START, cs).log| && Operate(START, cs).log[i].Sent?
              && Operate(START, cs).log[i].request.generation > 0
    ensures n < |cs| && |At(cs, n).log| <= i < |At(cs, n + 1).log|
    ensures var w, r := At(cs, n), Earlier(Operate(START, cs).log[i].request);
            && c in w.receipts && w.receipts[c].request == r && w.receipts[c].run.Some?
            && var run := w.receipts[c].run.value;
               && (AllCompleted(w, r) <==> OthersCompleted(w, r, run) && !Reopened(cs, n, run))
               && (TitleUnique(w, r) ==> (AllCompleted(w, r) <==> !Reopened(cs, n, run)))
  {
    hide Operate, Inv, At, CompletedAt, Reopened;
    AtEnd(cs);
    n := SentBy(cs, |cs|, i);
    var w, r := At(cs, n), Earlier(At(cs, |cs|).log[i].request);
    AtInv(cs);
    c :| c in w.receipts && w.receipts[c].request == r && Retryable(w.receipts[c].status);
    RecordedIsTitled(w, c);
    CompletedUnlessReopened(cs, n, r, w.receipts[c].run.value);
    RecordedDecides(cs, n, r, w.receipts[c].run.value);
  }

  lemma RecordedIsTitled(w: World, c: int)
    requires Inv(w) && c in w.receipts && Retryable(w.receipts[c].status)
    ensures w.receipts[c].run.Some?
    ensures var r, run := w.receipts[c].request, w.receipts[c].run.value;
            Witnessed(r, run) in w.log && run in w.runs && w.runs[run].title == Some(r)
  {
    hide Justified, Recorded, Held, Grounded, FollowsWitnessed, OneReceiptEach;
    assert ReceiptOk(w.log, w.receipts[c]);
  }

  lemma RecordedDecides(cs: seq<(Command, nat)>, n: nat, r: Request, run: int)
    requires n <= |cs| && run in At(cs, n).runs && At(cs, n).runs[run].title == Some(r)
    ensures AllCompleted(At(cs, n), r) <==> OthersCompleted(At(cs, n), r, run) && CompletedAt(cs, n, run)
    ensures TitleUnique(At(cs, n), r) ==> OthersCompleted(At(cs, n), r, run)
  {
    hide At;
  }

  // ----- Retries over a run that is still going -----

  const CANDIDATE := "0123456789abcdef0123456789abcdef01234567"
  const FIRST := Request(CANDIDATE, Normal, 0)
  const SECOND := Request(CANDIDATE, Normal, 1)
  const DONE := Run(CANDIDATE, Some(FIRST), true, true)
  const GOING := Run(CANDIDATE, Some(FIRST), true, false)

  const SILENT := Answers(true, true, true, true, None)

  /** The response to the first dispatch names no run; then `runs` appear, of which `run` is settled
      as failed, and generation 1 is dispatched once they have become `later`. */
  function RetryRun(runs: map<int, Run>, run: int, later: map<int, Run>): seq<(Command, nat)> {
    [(Dispatch(CANDIDATE, Normal, false, true, 1, SILENT), 3), (Elsewhere(runs), 0),
     (Settle(run, {run}, [Failed]), 3), (Elsewhere(later), 0),
     (Dispatch(CANDIDATE, Normal, true, true, 2, SILENT), 3)]
  }

  lemma Three(w: World, a: Effect, b: Effect, c: Effect)
    ensures ApplyAll(w, [a, b, c]) == Apply(Apply(Apply(w, a), b), c)
  {
    assert [a, b, c][1..] == [b, c] && [b, c][1..] == [c] && [c][1..] == [];
    assert ApplyAll(Apply(Apply(w, a), b), [c]) == Apply(Apply(Apply(w, a), b), c);
  }

  const WAITING := Receipt(FIRST, Unknown, None, [])

  function AfterDispatch(runs: map<int, Run>): World {
    World(map[1 := WAITING], runs, [SavedPending(FIRST), Sent(FIRST)])
  }

  function AfterSettle(run: int, runs: map<int, Run>): World {
    World(map[1 := Receipt(FIRST, Failed, Some(run), [])], runs,
          [SavedPending(FIRST), Sent(FIRST), Witnessed(FIRST, run)])
  }

  lemma FirstDispatch()
    ensures Execute(START, Dispatch(CANDIDATE, Normal, false, true, 1, SILENT), 3) == AfterDispatch(map[])
  {
    assert Existing(START, CANDIDATE, Normal) == {};
    var pending := WAITING.(status := Pending);
    Three(START, Write(1, pending), Send(FIRST), Write(1, WAITING));
  }

  lemma RunIsFound(runs: map<int, Run>, run: int)
    requires run in runs && runs[run] == DONE
    ensures Find(AfterDispatch(runs), run, {run}) == (Some(1), [Write(1, Adopted(WAITING, run))])
  {
    var w := AfterDispatch(runs);
    assert OfHead(w, CANDIDATE) == {1} && WithRun(w, CANDIDATE, run) == {};
    assert LostFor(w, CANDIDATE, Some(FIRST)) == {1} && Titled(w, {run}, FIRST) == {run};
    assert The({1}) == 1 && The({run}) == run;
  }

  lemma SettleRun(runs: map<int, Run>, run: int)
    requires run in runs && runs[run] == DONE
    ensures Execute(AfterDispatch(runs), Settle(run, {run}, [Failed]), 3) == AfterSettle(run, runs)
  {
    hide Find;
    var w := AfterDispatch(runs);
    RunIsFound(runs, run);
    var adopted := Adopted(WAITING, run);
    var refused := adopted.(status := Failed);
    assert Marks(1, adopted, [Failed]) == [Write(1, refused)];
    assert SettleEffects(w, run, {run}, [Failed]) == [Write(1, adopted), Witness(FIRST, run), Write(1, refused)];
    Three(w, Write(1, adopted), Witness(FIRST, run), Write(1, refused));
  }

  lemma SecondDispatch(run: int, runs: map<int, Run>)
    ensures var w := AfterSettle(run, runs);
            var next := Execute(w, Dispatch(CANDIDATE, Normal, true, true, 2, SILENT), 3);
            next.runs == runs && next.log == w.log + [SavedPending(SECOND), Sent(SECOND)]
  {
    var w := AfterSettle(run, runs);
    assert Existing(w, CANDIDATE, Normal) == {1} && The({1}) == 1;
    var pending := Renewed(w.receipts[1]);
    assert pending.request == SECOND;
    Three(w, Write(1, pending), Send(SECOND), Write(1, pending.(status := Unknown)));
  }

  lemma RunsBecome(w: World, later: map<int, Run>)
    requires forall id :: id in w.runs ==> id in later && later[id].title == w.runs[id].title
    ensures Execute(w, Elsewhere(later), 0) == w.(runs := later)
  {
  }

  lemma RetrySends(runs: map<int, Run>, run: int, later: map<int, Run>)
    requires run in runs && runs[run] == DONE
    requires forall id :: id in runs ==> id in later && later[id].title == runs[id].title
    ensures var w := Operate(START, RetryRun(runs, run, later));
            w.runs == later && w.log == AfterSettle(run, later).log + [SavedPending(SECOND), Sent(SECOND)]
  {
    hide Execute;
    var cs := RetryRun(runs, run, later);
    FirstDispatch();
    RunsBecome(AfterDispatch(map[]), runs);
    SettleRun(runs, run);
    RunsBecome(AfterSettle(run, runs), later);
    SecondDispatch(run, later);
    var last := Execute(AfterSettle(run, later), cs[4].0, 3);
    OneMore(START, cs);
    OneMore(AfterDispatch(map[]), cs[1..]);
    OneMore(AfterDispatch(runs), cs[1..][1..]);
    OneMore(AfterSettle(run, runs), cs[1..][1..][1..]);
    OneMore(AfterSettle(run, later), cs[1..][1..][1..][1..]);
    assert Operate(last, cs[1..][1..][1..][1..][1..]) == last;
  }

  lemma OneMore(w: World, cs: seq<(Command, nat)>)
    requires cs != []
    ensures Operate(w, cs) == Operate(Execute(w, cs[0].0, cs[0].1), cs[1..])
  {
  }

  /** The receipt adopts run 7, which somebody else started, and generation 1 is sent while run 8 of
      generation 0 goes on. */
  lemma RetryCanOverlap()
    ensures var runs := map[7 := DONE, 8 := GOING];
            var w := Operate(START, RetryRun(runs, 7, runs));
            && Sent(SECOND) in w.log && 8 in w.runs && w.runs[8].title == Some(Earlier(SECOND))
            && !w.runs[8].completed && Witnessed(Earlier(SECOND), 8) !in w.log
  {
    var runs := map[7 := DONE, 8 := GOING];
    RetrySends(runs, 7, runs);
    var log := Operate(START, RetryRun(runs, 7, runs)).log;
    assert log[4] == Sent(SECOND);
  }

  /** The only run of generation 0 failed, and generation 1 is sent while a rerun of it goes on. */
  lemma RerunCanOverlap()
    ensures var w := Operate(START, RetryRun(map[8 := DONE], 8, map[8 := GOING]));
            Sent(SECOND) in w.log && TitleUnique(w, FIRST) && !AllCompleted(w, FIRST)
  {
    RetrySends(map[8 := DONE], 8, map[8 := GOING]);
    var w := Operate(START, RetryRun(map[8 := DONE], 8, map[8 := GOING]));
    assert w.log[4] == Sent(SECOND) && w.runs[8] == GOING;
  }
}
