/**
 What a dispatch, a recovery and a settlement that are not killed do, told by what they find: what
 is sent, what the receipt records, and which completed run is settled on which receipt.
 */
module CoordinatorLaws {
  import opened Results
  import opened Sorting
  import opened Coordinator
  import opened CoordinatorFacts

  // ----- dispatch

  /** The receipt of a candidate and profile, if it has one. */
  predicate HasReceipt(w: World, sha: string, profile: Profile, c: int) {
    c in w.receipts && w.receipts[c].request.sha == sha && w.receipts[c].request.profile == profile
  }

  /** What a dispatch begins: generation 0 of a candidate without a receipt, or, when a retry is asked
      for, the generation after one that failed or whose evidence was blocked. */
  ghost predicate Starts(w: World, sha: string, profile: Profile, retry: bool, unused: int, check: int, r: Receipt) {
    || (check == unused && (forall c :: !HasReceipt(w, sha, profile, c))
        && r == Receipt(Request(sha, profile, 0), Pending, None, []))
    || (retry && HasReceipt(w, sha, profile, check) && w.receipts[check].status in {Failed, BlockedEvidence}
        && var prior := w.receipts[check];
           && r.request == Request(sha, profile, prior.request.generation + 1) && r.status == Pending && r.run.None?
           && var all := prior.previous + [Previous(prior.run, prior.request)];
              r.previous == if |all| > 16 then all[|all| - 16..] else all)
  }

  lemma DecisionStarts(w: World, sha: string, profile: Profile, retry: bool, unused: int)
    requires OneReceiptEach(w)
    ensures forall check, r :: Decision(w, sha, profile, retry, unused) == Some(Write(check, r)) <==>
              Starts(w, sha, profile, retry, unused, check, r)
  {
    var existing := Existing(w, sha, profile);
    forall c ensures c in existing <==> HasReceipt(w, sha, profile, c) { }
    if c :| c in existing {
      OneOf(existing, c);
    } else {
      NoElements(existing);
    }
  }

  lemma OneOf(s: set<int>, c: int)
    requires c in s && forall d :: d in s ==> d == c
    ensures s == {c} && |s| == 1 && The(s) == c
  {
    assert s <= {c} by {
      forall d | d in s ensures d in {c} { }
    }
    assert s == {c};
  }

  lemma Unrolled(w: World, es: seq<Effect>)
    requires |es| <= 3
    ensures ApplyAll(w, es)
         == if es == [] then w
            else if |es| == 1 then Apply(w, es[0])
            else if |es| == 2 then Apply(Apply(w, es[0]), es[1])
            else Apply(Apply(Apply(w, es[0]), es[1]), es[2])
  {
    hide Apply;
    if |es| > 0 {
      var first := Apply(w, es[0]);
      assert ApplyAll(w, es) == ApplyAll(first, es[1..]);
      if |es| > 1 {
        var second := Apply(first, es[1]);
        assert es[1..][0] == es[1] && es[1..][1..] == es[2..];
        assert ApplyAll(w, es) == ApplyAll(second, es[2..]);
        if |es| > 2 {
          assert es[2..][0] == es[2] && es[2..][1..] == [];
        }
      }
    }
  }

  /** What stands on the receipt after a dispatch: the run of the response, when it named one. */
  function Standing(r: Receipt, a: Answers): Receipt {
    if !a.saved then r
    else if a.mainStill && a.response.Some? then r.(status := Dispatched, run := a.response)
    else r.(status := Unknown)
  }

  /**
   The law of `dispatch`, for a process that is not killed.  With permission, and while main is the
   pinned candidate, it begins what `Starts` says and nothing else: the pending receipt is saved, the
   workflow is sent once if main still is the candidate then, and the receipt gets the run that the
   response names, or is of unknown outcome.  Otherwise nothing changes.
   */
  lemma DispatchLaw(w: World, sha: string, profile: Profile, retry: bool, apply: bool, unused: int, a: Answers,
      steps: nat)
    requires OneReceiptEach(w) && unused !in w.receipts && steps >= 3
    ensures var w' := Execute(w, Dispatch(sha, profile, retry, apply, unused, a), steps);
            && (forall check, r :: apply && a.main && a.pinned && Starts(w, sha, profile, retry, unused, check, r) ==>
                  && w'.receipts == w.receipts[check := Standing(r, a)] && w'.runs == w.runs
                  && w'.log == w.log + [SavedPending(r.request)]
                               + if a.saved && a.mainStill then [Sent(r.request)] else [])
            && ((forall check, r :: !(apply && a.main && a.pinned && Starts(w, sha, profile, retry, unused, check, r)))
                  ==> w' == w)
  {
    hide Decision, Starts;
    DecisionStarts(w, sha, profile, retry, unused);
    var es := DispatchEffects(w, sha, profile, retry, apply, unused, a);
    Unrolled(w, es);
    if first :| Decision(w, sha, profile, retry, unused) == Some(first) {
      PendingStarts(w, sha, profile, retry, unused, first.check, first.receipt);
    }
  }

  lemma PendingStarts(w: World, sha: string, profile: Profile, retry: bool, unused: int, check: int, r: Receipt)
    requires Starts(w, sha, profile, retry, unused, check, r)
    ensures r.status == Pending && r.run.None?
  {
  }

  // ----- recovery

  predicate Names(w: World, r: Request, run: int) {
    run in w.runs && w.runs[run].head == r.sha && w.runs[run].title == Some(r)
  }

  /** Exactly one of the listed runs is on the candidate and carries the request in its title. */
  ghost predicate OnlyRun(w: World, visible: set<int>, r: Request, run: int) {
    && run in visible && Names(w, r, run)
    && forall other :: other in visible && Names(w, r, other) ==> other == run
  }

  lemma MatchedRun(w: World, visible: set<int>, r: Request)
    ensures |Titled(w, visible, r)| == 1 <==> exists run :: OnlyRun(w, visible, r, run)
    ensures forall run :: OnlyRun(w, visible, r, run) ==> Titled(w, visible, r) == {run}
  {
    var matched := Titled(w, visible, r);
    if |matched| == 1 {
      var run := The(matched);
      assert matched == {run};
      forall other | other in visible && Names(w, r, other) ensures other == run {
        assert other in matched;
      }
      assert run in matched && OnlyRun(w, visible, r, run);
    }
    forall run | OnlyRun(w, visible, r, run) ensures matched == {run} {
      assert run in matched;
      OneOf(matched, run);
    }
  }

  /** The law of a recovery: a lost receipt adopts the only titled run when that is trusted. */
  lemma RecoverLaw(w: World, check: int, visible: set<int>, steps: nat)
    requires check in w.receipts && Lost(w.receipts[check].status) && steps >= 1
    ensures var r, w' := w.receipts[check], Execute(w, Recover(check, visible), steps);
            && w'.log == w.log && w'.runs == w.runs
            && (forall run :: OnlyRun(w, visible, r.request, run) && w.runs[run].trusted ==>
                  w'.receipts == w.receipts[check := r.(status := Dispatched, run := Some(run))])
            && ((forall run :: !(OnlyRun(w, visible, r.request, run) && w.runs[run].trusted)) ==> w' == w)
  {
    hide Titled, OnlyRun;
    var r := w.receipts[check].request;
    MatchedRun(w, visible, r);
    Unrolled(w, RecoverEffects(w, check, visible));
    if run :| OnlyRun(w, visible, r, run) {
      OneOf({run}, run);
      OnlyRunIs(w, visible, r, run);
    }
  }

  lemma OnlyRunIs(w: World, visible: set<int>, r: Request, run: int)
    requires OnlyRun(w, visible, r, run)
    ensures run in w.runs && forall other :: OnlyRun(w, visible, r, other) ==> other == run
  {
  }

  // ----- settlement

  /** The run belongs to a generation that was retried since. */
  ghost predicate Retried(w: World, run: int)
    requires run in w.runs
  {
    exists c, i :: c in w.receipts && w.receipts[c].request.sha == w.runs[run].head
      && 0 <= i < |w.receipts[c].previous| && w.receipts[c].previous[i].run == Some(run)
  }

  ghost predicate RecordsRun(w: World, c: int, run: int)
    requires run in w.runs
  {
    c in w.receipts && w.receipts[c].request.sha == w.runs[run].head && w.receipts[c].run == Some(run)
  }

  /** The receipt that a completed run is settled on: the only one of its head that records it, if its
      title agrees; or, when none records it, the lost one that its title names, if it is the only
      run that this title names and it is trusted. */
  ghost predicate SettlesOn(w: World, run: int, visible: set<int>, c: int)
    requires run in w.runs
  {
    && !Retried(w, run) && c in w.receipts && w.runs[run].title == Some(w.receipts[c].request)
    && w.receipts[c].request.sha == w.runs[run].head
    && if RecordsRun(w, c, run) then forall d :: RecordsRun(w, d, run) ==> d == c
       else
         && (forall d :: !RecordsRun(w, d, run)) && w.receipts[c].status in {Pending, Unknown}
         && OnlyRun(w, visible, w.receipts[c].request, run) && w.runs[run].trusted
  }

  /** What stands on the receipt afterwards: the last verdict, unless the receipt is closed. */
  function Settled(r: Receipt, run: int, marks: seq<Status>): Receipt {
    var found := if r.run == Some(run) then r else r.(status := Dispatched, run := Some(run));
    if found.status == Closed || marks == [] then found else found.(status := marks[|marks| - 1])
  }

  lemma {:induction false} MarksApply(w: World, check: int, receipt: Receipt, marks: seq<Status>)
    requires Verdicts(marks) && check in w.receipts && w.receipts[check] == receipt
    ensures ApplyAll(w, Marks(check, receipt, marks))
         == w.(receipts := w.receipts[check := if marks == [] then receipt else receipt.(status := marks[|marks| - 1])])
    decreases |marks|
  {
    if marks != [] {
      var init, last := marks[..|marks| - 1], marks[|marks| - 1];
      assert last in marks && forall m :: m in init ==> m in marks;
      MarksApply(w, check, receipt, init);
      assert Marks(check, receipt, marks) == Marks(check, receipt, init) + [Write(check, receipt.(status := last))];
      ApplyLast(w, Marks(check, receipt, init), Write(check, receipt.(status := last)));
    }
  }

  lemma {:induction false} ApplyLast(w: World, es: seq<Effect>, e: Effect)
    ensures ApplyAll(w, es + [e]) == Apply(ApplyAll(w, es), e)
    decreases |es|
  {
    hide Apply;
    if es == [] {
      assert [] + [e] == [e] && [e][1..] == [];
    } else {
      assert (es + [e])[0] == es[0] && (es + [e])[1..] == es[1..] + [e];
      ApplyLast(Apply(w, es[0]), es[1..], e);
    }
  }

  lemma EvaluateApply(w: World, check: int, run: int, marks: seq<Status>)
    requires Verdicts(marks) && check in w.receipts && w.receipts[check].run == Some(run)
    ensures var r := w.receipts[check];
            ApplyAll(w, EvaluateEffects(check, r, run, marks))
            == w.(receipts := w.receipts[check := Settled(r, run, marks)], log := w.log + [Witnessed(r.request, run)])
  {
    hide Marks, Verdicts;
    var r := w.receipts[check];
    var seen := Apply(w, Witness(r.request, run));
    var rest := if r.status == Closed then [] else Marks(check, r, marks);
    MarksApply(seen, check, r, marks);
    assert ([Witness(r.request, run)] + rest)[1..] == rest;
    assert w.receipts[check := r] == w.receipts;
  }

  /** `find_request`, told without its sets. */
  lemma FindIs(w: World, run: int, visible: set<int>)
    requires OneReceiptEach(w) && run in w.runs
    ensures forall c :: SettlesOn(w, run, visible, c) ==>
              Find(w, run, visible)
              == (Some(c), if RecordsRun(w, c, run) then [] else [Write(c, Adopted(w.receipts[c], run))])
    ensures (forall c :: !SettlesOn(w, run, visible, c)) ==> Find(w, run, visible).0.None?
  {
    hide OneReceiptEach, Titled, OnlyRun;
    ReplacedIs(w, run);
    RowsAre(w, run);
    forall c | SettlesOn(w, run, visible, c)
      ensures Find(w, run, visible)
           == (Some(c), if RecordsRun(w, c, run) then [] else [Write(c, Adopted(w.receipts[c], run))])
    {
      SettledFound(w, run, visible, c);
    }
    if Find(w, run, visible).0.Some? {
      FoundSettles(w, run, visible);
    }
  }

  lemma ReplacedIs(w: World, run: int)
    requires run in w.runs
    ensures Replaced(w, w.runs[run].head, run) <==> Retried(w, run)
  {
    if Replaced(w, w.runs[run].head, run) {
      var c :| c in OfHead(w, w.runs[run].head) && exists p :: p in w.receipts[c].previous && p.run == Some(run);
      var p :| p in w.receipts[c].previous && p.run == Some(run);
      var i :| 0 <= i < |w.receipts[c].previous| && w.receipts[c].previous[i] == p;
    }
    if Retried(w, run) {
      var c, i :| c in w.receipts && w.receipts[c].request.sha == w.runs[run].head
        && 0 <= i < |w.receipts[c].previous| && w.receipts[c].previous[i].run == Some(run);
      assert w.receipts[c].previous[i] in w.receipts[c].previous;
      assert c in OfHead(w, w.runs[run].head);
    }
  }

  lemma RowsAre(w: World, run: int)
    requires run in w.runs
    ensures forall c :: c in WithRun(w, w.runs[run].head, run) <==> RecordsRun(w, c, run)
  {
  }

  lemma LostIs(w: World, run: int, c: int)
    requires OneReceiptEach(w) && run in w.runs && c in w.receipts && w.receipts[c].status in {Pending, Unknown}
    requires w.receipts[c].request.sha == w.runs[run].head && w.runs[run].title == Some(w.receipts[c].request)
    ensures LostFor(w, w.runs[run].head, w.runs[run].title) == {c}
  {
    var lost := LostFor(w, w.runs[run].head, w.runs[run].title);
    assert c in lost;
    forall d | d in lost ensures d == c {
      assert SameKey(w.receipts[d].request, w.receipts[c].request);
    }
  }

  lemma SettledFound(w: World, run: int, visible: set<int>, c: int)
    requires OneReceiptEach(w) && run in w.runs && SettlesOn(w, run, visible, c)
    ensures Find(w, run, visible)
         == (Some(c), if RecordsRun(w, c, run) then [] else [Write(c, Adopted(w.receipts[c], run))])
  {
    hide OneReceiptEach, Titled, Retried;
    ReplacedIs(w, run);
    RowsAre(w, run);
    var rows := WithRun(w, w.runs[run].head, run);
    if RecordsRun(w, c, run) {
      OneOf(rows, c);
    } else {
      NoElements(rows);
      LostIs(w, run, c);
      OneOf({c}, c);
      MatchedRun(w, visible, w.receipts[c].request);
      OneOf({run}, run);
    }
  }

  lemma FoundSettles(w: World, run: int, visible: set<int>)
    requires run in w.runs && Find(w, run, visible).0.Some?
    ensures SettlesOn(w, run, visible, Find(w, run, visible).0.value)
  {
    hide Titled, Retried, OnlyRun;
    ReplacedIs(w, run);
    RowsAre(w, run);
    var head, title := w.runs[run].head, w.runs[run].title;
    var rows, lost := WithRun(w, head, run), LostFor(w, head, title);
    if rows == {} {
      var c := The(lost);
      assert c in lost;
      MatchedRun(w, visible, w.receipts[c].request);
      AdoptedRun(w, c, visible, run);
    } else {
      var c := The(rows);
      assert c in rows;
    }
  }

  lemma AdoptedRun(w: World, c: int, visible: set<int>, run: int)
    requires c in w.receipts && RecoverEffects(w, c, visible) == [Write(c, Adopted(w.receipts[c], run))]
    ensures OnlyRun(w, visible, w.receipts[c].request, run) && w.runs[run].trusted
  {
    var matched := Titled(w, visible, w.receipts[c].request);
    assert matched == {The(matched)};
    assert Adopted(w.receipts[c], run).run == Some(run) && The(matched) == run;
    forall other | other in visible && Names(w, w.receipts[c].request, other) ensures other == run {
      assert other in matched;
    }
  }

  /**
   The law of a settlement, for a process that is not killed.  A completed run that `SettlesOn` a
   receipt is authenticated for its request there and leaves its last verdict on it; any other run
   is never authenticated, and at most another lost receipt is recovered on the way.
   */
  lemma SettleLaw(w: World, run: int, visible: set<int>, marks: seq<Status>, steps: nat)
    requires OneReceiptEach(w) && run in w.runs && w.runs[run].completed && Verdicts(marks) && steps >= |marks| + 2
    ensures var w' := Execute(w, Settle(run, visible, marks), steps);
            && w'.runs == w.runs
            && (forall c :: SettlesOn(w, run, visible, c) ==>
                  && w'.receipts == w.receipts[c := Settled(w.receipts[c], run, marks)]
                  && w'.log == w.log + [Witnessed(w.receipts[c].request, run)])
            && ((forall c :: !SettlesOn(w, run, visible, c)) ==> w'.log == w.log)
  {
    hide Find, SettlesOn, Verdicts, OneReceiptEach;
    FindIs(w, run, visible);
    var (check, adopt) := Find(w, run, visible);
    var es := SettleEffects(w, run, visible, marks);
    if c :| SettlesOn(w, run, visible, c) {
      SettleApply(w, run, visible, marks, c);
      SettlesAlone(w, run, visible, c);
    } else {
      AdoptQuiet(w, run, visible);
    }
  }

  lemma SettlesAlone(w: World, run: int, visible: set<int>, c: int)
    requires OneReceiptEach(w) && run in w.runs && SettlesOn(w, run, visible, c)
    ensures forall d :: SettlesOn(w, run, visible, d) ==> d == c
  {
    FindIs(w, run, visible);
  }

  lemma SettleApply(w: World, run: int, visible: set<int>, marks: seq<Status>, c: int)
    requires OneReceiptEach(w) && run in w.runs && Verdicts(marks) && SettlesOn(w, run, visible, c)
    ensures |SettleEffects(w, run, visible, marks)| <= |marks| + 2
    ensures ApplyAll(w, SettleEffects(w, run, visible, marks))
         == w.(receipts := w.receipts[c := Settled(w.receipts[c], run, marks)],
               log := w.log + [Witnessed(w.receipts[c].request, run)])
  {
    hide Find, Verdicts, OneReceiptEach, EvaluateEffects, Settled;
    FindIs(w, run, visible);
    EvaluateLength(c, w.receipts[c], run, marks);
    if RecordsRun(w, c, run) {
      assert [] + EvaluateEffects(c, w.receipts[c], run, marks) == EvaluateEffects(c, w.receipts[c], run, marks);
      EvaluateApply(w, c, run, marks);
    } else {
      var adopted := Adopted(w.receipts[c], run);
      var next := Apply(w, Write(c, adopted));
      var es := EvaluateEffects(c, adopted, run, marks);
      EvaluateLength(c, adopted, run, marks);
      assert ([Write(c, adopted)] + es)[1..] == es;
      EvaluateApply(next, c, run, marks);
      SettledTwice(w.receipts[c], run, marks);
    }
  }

  lemma EvaluateLength(check: int, r: Receipt, run: int, marks: seq<Status>)
    ensures |EvaluateEffects(check, r, run, marks)| <= |marks| + 1
  {
  }

  lemma SettledTwice(r: Receipt, run: int, marks: seq<Status>)
    requires r.run != Some(run)
    ensures Settled(Adopted(r, run), run, marks) == Settled(r, run, marks)
  {
  }

  lemma AdoptQuiet(w: World, run: int, visible: set<int>)
    requires run in w.runs
    ensures |Find(w, run, visible).1| <= 1 && NoEvents(Find(w, run, visible).1)
    ensures ApplyAll(w, Find(w, run, visible).1).log == w.log && ApplyAll(w, Find(w, run, visible).1).runs == w.runs
  {
    hide Titled, OfHead, Replaced, WithRun;
    Unrolled(w, Find(w, run, visible).1);
  }

  predicate NoEvents(es: seq<Effect>) {
    forall e :: e in es ==> e.Write? && e.receipt.status != Pending
  }

  // ----- the round

  /** No receipt knows the run yet. */
  ghost predicate NewRun(w: World, run: int) {
    forall c :: c in w.receipts ==>
      w.receipts[c].run != Some(run)
      && forall i :: 0 <= i < |w.receipts[c].previous| ==> w.receipts[c].previous[i].run != Some(run)
  }

  /** A run that the dispatch did name is settled on that receipt once it is completed, whatever runs
      there are besides and whatever is listed: it is authenticated and its last verdict recorded. */
  lemma DispatchedRunSettles(w: World, sha: string, profile: Profile, retry: bool, unused: int, check: int, r: Receipt,
      run: int, runs: map<int, Run>, visible: set<int>, marks: seq<Status>)
    requires Inv(w) && unused !in w.receipts && Starts(w, sha, profile, retry, unused, check, r) && NewRun(w, run)
    requires (forall id :: id in w.runs ==> id in runs && runs[id].title == w.runs[id].title)
    requires run in runs && runs[run].completed && runs[run].head == sha && runs[run].title == Some(r.request)
    requires Verdicts(marks)
    ensures var answers := Answers(true, true, true, true, Some(run));
            var w1 := Execute(w, Dispatch(sha, profile, retry, true, unused, answers), 3);
            var w2 := Execute(w1, Elsewhere(runs), 0);
            var w3 := Execute(w2, Settle(run, visible, marks), |marks| + 2);
            && w1.receipts == w.receipts[check := r.(status := Dispatched, run := Some(run))]
            && w3.receipts == w1.receipts[check := Settled(w1.receipts[check], run, marks)]
            && w3.log == w.log + [SavedPending(r.request), Sent(r.request), Witnessed(r.request, run)]
  {
    hide Inv, Starts, SettlesOn, Verdicts, Execute, NewRun;
    var answers := Answers(true, true, true, true, Some(run));
    var dispatch := Dispatch(sha, profile, retry, true, unused, answers);
    var w1 := Execute(w, dispatch, 3);
    var standing := r.(status := Dispatched, run := Some(run));
    InvOne(w);
    DispatchLaw(w, sha, profile, retry, true, unused, answers, 3);
    ExecuteKeeps(w, dispatch, 3);
    var w2 := w1.(runs := runs);
    RunsBecome(w1, runs);
    ExecuteKeeps(w1, Elsewhere(runs), 0);
    InvOne(w2);
    DispatchedSettlesOn(w, sha, profile, retry, unused, check, r, run, w2, visible);
    SettleLaw(w2, run, visible, marks, |marks| + 2);
  }

  lemma InvOne(w: World)
    requires Inv(w)
    ensures OneReceiptEach(w)
  {
  }

  lemma RunsBecome(w: World, runs: map<int, Run>)
    requires forall id :: id in w.runs ==> id in runs && runs[id].title == w.runs[id].title
    ensures Execute(w, Elsewhere(runs), 0) == w.(runs := runs)
  {
  }

  lemma DispatchedSettlesOn(w: World, sha: string, profile: Profile, retry: bool, unused: int, check: int, r: Receipt,
      run: int, w2: World, visible: set<int>)
    requires Starts(w, sha, profile, retry, unused, check, r) && NewRun(w, run)
    requires w2.receipts == w.receipts[check := r.(status := Dispatched, run := Some(run))]
    requires run in w2.runs && w2.runs[run].head == sha && w2.runs[run].title == Some(r.request)
    ensures SettlesOn(w2, run, visible, check)
  {
    StartsAnew(w, sha, profile, retry, unused, check, r, run);
    assert RecordsRun(w2, check, run);
    forall c, i | c in w2.receipts && 0 <= i < |w2.receipts[c].previous|
      ensures w2.receipts[c].previous[i].run != Some(run)
    {
    }
  }

  lemma StartsAnew(w: World, sha: string, profile: Profile, retry: bool, unused: int, check: int, r: Receipt, run: int)
    requires Starts(w, sha, profile, retry, unused, check, r) && NewRun(w, run)
    ensures r.request.sha == sha
    ensures forall i :: 0 <= i < |r.previous| ==> r.previous[i].run != Some(run)
  {
  }
}
