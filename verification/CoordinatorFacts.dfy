/** What every run of the receipt protocol keeps, with crashes between any two writes. */
module CoordinatorFacts {
  import opened Results
  import opened Sorting
  import opened Coordinator

  // ----- The invariant -----

  predicate OneReceiptEach(w: World) {
    forall c, d :: c in w.receipts && d in w.receipts && SameKey(w.receipts[c].request, w.receipts[d].request) ==>
        c == d
  }

  ghost predicate Finished(log: seq<Event>, request: Request) {
    exists run :: Witnessed(request, run) in log
  }

  /** A generation is only begun when a run of every one before it was seen completed. */
  ghost predicate Grounded(log: seq<Event>, request: Request) {
    forall k: nat :: k < request.generation ==> Finished(log, request.(generation := k))
  }

  /** The dispatch at position i: its pending receipt was saved before, the generations before it
      were finished before, and it is the first of its request. */
  ghost predicate Justified(log: seq<Event>, i: nat)
    requires i < |log|
  {
    log[i].Sent? ==>
      && SavedPending(log[i].request) in log[..i]
      && Sent(log[i].request) !in log[..i]
      && Grounded(log[..i], log[i].request)
  }

  ghost predicate Recorded(w: World, request: Request) {
    exists c :: c in w.receipts && SameKey(w.receipts[c].request, request)
        && request.generation <= w.receipts[c].request.generation
  }

  /** The run that a receipt records for the generation before its own. */
  predicate Follows(receipt: Receipt, run: int) {
    && receipt.request.generation > 0 && receipt.previous != []
    && receipt.previous[|receipt.previous| - 1] == Previous(Some(run), Earlier(receipt.request))
  }

  ghost predicate FollowsWitnessed(log: seq<Event>, receipt: Receipt) {
    receipt.request.generation > 0 ==>
        exists run :: Follows(receipt, run) && Witnessed(Earlier(receipt.request), run) in log
  }

  ghost predicate ReceiptOk(log: seq<Event>, receipt: Receipt) {
    && (Retryable(receipt.status) ==> receipt.run.Some? && Witnessed(receipt.request, receipt.run.value) in log)
    && (Lost(receipt.status) ==> receipt.run.None?)
    && Grounded(log, receipt.request) && FollowsWitnessed(log, receipt)
  }

  /** A witnessed run is still the one on its receipt, until a later generation replaces it. */
  ghost predicate Held(receipts: map<int, Receipt>, request: Request, run: int) {
    exists c :: c in receipts && SameKey(receipts[c].request, request)
      && (request.generation < receipts[c].request.generation
           || (receipts[c].request == request && receipts[c].run == Some(run)))
  }

  ghost predicate WitnessesHeld(w: World) {
    forall r, run :: Witnessed(r, run) in w.log ==> Held(w.receipts, r, run)
  }

  /** No request has two witnessed runs. */
  ghost predicate WitnessedOnce(log: seq<Event>) {
    forall r, a, b :: Witnessed(r, a) in log && Witnessed(r, b) in log ==> a == b
  }

  ghost predicate Titles(w: World) {
    forall r, run :: Witnessed(r, run) in w.log ==> run in w.runs && w.runs[run].title == Some(r)
  }

  ghost predicate Inv(w: World) {
    && OneReceiptEach(w)
    && (forall c :: c in w.receipts ==> ReceiptOk(w.log, w.receipts[c]))
    && (forall i :: 0 <= i < |w.log| ==> Justified(w.log, i))
    && (forall r :: Sent(r) in w.log ==> Recorded(w, r))
    && WitnessesHeld(w) && WitnessedOnce(w.log) && Titles(w)
  }

  // ----- What one write must respect -----

  /** A rewrite of one generation: only a lost dispatch may be given a run. */
  predicate Rewrites(old_: Receipt, receipt: Receipt) {
    && receipt.request == old_.request && receipt.previous == old_.previous
    && if Lost(old_.status) then Lost(receipt.status) ==> receipt.run.None?
       else receipt.run == old_.run && !Lost(receipt.status)
  }

  predicate Begins(w: World, receipt: Receipt) {
    && receipt.request.generation == 0 && receipt.status == Pending && receipt.run.None?
    && forall c :: c in w.receipts ==> !SameKey(w.receipts[c].request, receipt.request)
  }

  ghost predicate Allowed(w: World, e: Effect) {
    match e
    case Write(check, receipt) =>
      && (if check in w.receipts then
            Rewrites(w.receipts[check], receipt)
                || (Retryable(w.receipts[check].status) && receipt == Renewed(w.receipts[check]))
          else Begins(w, receipt))
      && (Retryable(receipt.status) ==> receipt.run.Some? && Witnessed(receipt.request, receipt.run.value) in w.log)
    case Send(r) =>
      && SavedPending(r) in w.log && Sent(r) !in w.log
      && exists c :: c in w.receipts && w.receipts[c].request == r
    case Witness(r, run) =>
      && run in w.runs && w.runs[run].title == Some(r)
      && exists c :: c in w.receipts && w.receipts[c].request == r && w.receipts[c].run == Some(run)
  }

  lemma GroundedLater(log: seq<Event>, more: seq<Event>, request: Request)
    requires Grounded(log, request)
    ensures Grounded(log + more, request)
  {
    forall k: nat | k < request.generation ensures Finished(log + more, request.(generation := k)) {
      var run :| Witnessed(request.(generation := k), run) in log;
      assert Witnessed(request.(generation := k), run) in log + more;
    }
  }

  lemma ReceiptLater(log: seq<Event>, more: seq<Event>, receipt: Receipt)
    requires ReceiptOk(log, receipt)
    ensures ReceiptOk(log + more, receipt)
  {
    hide Grounded, Follows;
    GroundedLater(log, more, receipt.request);
  }

  lemma JustifiedLater(log: seq<Event>, event: Event)
    requires forall i :: 0 <= i < |log| ==> Justified(log, i)
    requires Justified(log + [event], |log|)
    ensures forall i :: 0 <= i < |log + [event]| ==> Justified(log + [event], i)
  {
    hide Grounded;
    forall i | 0 <= i < |log| ensures Justified(log + [event], i) {
      assert Justified(log, i);
      assert (log + [event])[..i] == log[..i];
    }
  }

  /** The first receipt of a generation is in order: the one before it was witnessed. */
  lemma RenewedOk(log: seq<Event>, prior: Receipt)
    requires ReceiptOk(log, prior) && Retryable(prior.status)
    ensures ReceiptOk(log, Renewed(prior))
  {
    var next := Renewed(prior);
    var run := prior.run.value;
    assert Earlier(next.request) == prior.request;
    assert Follows(next, run);
    forall k: nat | k < next.request.generation ensures Finished(log, next.request.(generation := k)) {
      assert next.request.(generation := k) == prior.request.(generation := k);
      if k == prior.request.generation {
        assert prior.request.(generation := k) == prior.request;
      }
    }
  }

  lemma WriteReceipts(w: World, check: int, receipt: Receipt)
    requires Inv(w) && Allowed(w, Write(check, receipt))
    ensures ReceiptOk(w.log, receipt)
  {
    hide Justified, Recorded, WitnessesHeld, WitnessedOnce, Titles, Renewed;
    if check in w.receipts {
      var prior := w.receipts[check];
      if Retryable(prior.status) && receipt == Renewed(prior) {
        RenewedOk(w.log, prior);
      }
    }
  }

  lemma WriteOnce(w: World, check: int, receipt: Receipt)
    requires Inv(w) && Allowed(w, Write(check, receipt))
    ensures OneReceiptEach(Apply(w, Write(check, receipt)))
  {
    hide Justified, Recorded, WitnessesHeld, WitnessedOnce, Titles, ReceiptOk;
  }

  lemma HeldLater(w: World, check: int, receipt: Receipt, r: Request, run: int)
    requires Inv(w) && Allowed(w, Write(check, receipt)) && Held(w.receipts, r, run)
    ensures Held(w.receipts[check := receipt], r, run)
  {
    hide Justified, Recorded, WitnessesHeld, WitnessedOnce, Titles, Grounded, FollowsWitnessed;
    var c :| c in w.receipts && SameKey(w.receipts[c].request, r)
      && (r.generation < w.receipts[c].request.generation
           || (w.receipts[c].request == r && w.receipts[c].run == Some(run)));
    var next := w.receipts[check := receipt];
    assert ReceiptOk(w.log, w.receipts[c]);
    assert c in next && SameKey(next[c].request, r)
      && (r.generation < next[c].request.generation || (next[c].request == r && next[c].run == Some(run)));
  }

  lemma RecordedLater(w: World, check: int, receipt: Receipt, r: Request)
    requires Allowed(w, Write(check, receipt)) && Recorded(w, r)
    ensures Recorded(Apply(w, Write(check, receipt)), r)
  {
    var c :| c in w.receipts && SameKey(w.receipts[c].request, r) && r.generation <= w.receipts[c].request.generation;
    var next := Apply(w, Write(check, receipt));
    assert c in next.receipts && SameKey(next.receipts[c].request, r)
             && r.generation <= next.receipts[c].request.generation;
  }

  lemma WriteKeeps(w: World, check: int, receipt: Receipt)
    requires Inv(w) && Allowed(w, Write(check, receipt))
    ensures Inv(Apply(w, Write(check, receipt)))
  {
    hide Allowed, ReceiptOk, Recorded, Held, OneReceiptEach, Justified;
    var next := Apply(w, Write(check, receipt));
    var more := if receipt.status == Pending then [SavedPending(receipt.request)] else [];
    assert next.log == w.log + more;
    WriteReceipts(w, check, receipt);
    WriteOnce(w, check, receipt);
    forall c | c in next.receipts ensures ReceiptOk(next.log, next.receipts[c]) {
      ReceiptLater(w.log, more, next.receipts[c]);
    }
    if more != [] {
      PendingJustified(w.log, receipt.request);
      JustifiedLater(w.log, more[0]);
    }
    forall r | Sent(r) in next.log ensures Recorded(next, r) {
      assert Sent(r) in w.log;
      RecordedLater(w, check, receipt, r);
    }
    forall r, run | Witnessed(r, run) in next.log ensures Witnessed(r, run) in w.log && Held(next.receipts, r, run) {
      HeldLater(w, check, receipt, r, run);
    }
  }

  lemma PendingJustified(log: seq<Event>, r: Request)
    ensures Justified(log + [SavedPending(r)], |log|)
  {
  }

  lemma SendKeeps(w: World, r: Request)
    requires Inv(w) && Allowed(w, Send(r))
    ensures Inv(Apply(w, Send(r)))
  {
    hide Grounded, FollowsWitnessed, Held;
    var next := Apply(w, Send(r));
    assert next.log == w.log + [Sent(r)] && next.log[..|w.log|] == w.log;
    var c :| c in w.receipts && w.receipts[c].request == r;
    assert ReceiptOk(w.log, w.receipts[c]);
    forall d | d in next.receipts ensures ReceiptOk(next.log, next.receipts[d]) {
      ReceiptLater(w.log, [Sent(r)], next.receipts[d]);
    }
    JustifiedLater(w.log, Sent(r));
    forall x | Sent(x) in next.log ensures Recorded(next, x) {
      if Sent(x) in w.log {
        var d :| d in w.receipts && SameKey(w.receipts[d].request, x)
            && x.generation <= w.receipts[d].request.generation;
        assert d in next.receipts;
      } else {
        assert next.receipts[c].request == x;
      }
    }
    assert forall x, run :: Witnessed(x, run) in next.log ==> Witnessed(x, run) in w.log;
  }

  /** Two witnessed runs of one request are both the one on its receipt. */
  lemma WitnessAgain(w: World, r: Request, run: int, other: int)
    requires Inv(w) && Allowed(w, Witness(r, run)) && Witnessed(r, other) in w.log
    ensures other == run
  {
    hide Justified, Recorded, ReceiptOk, WitnessedOnce, Titles;
    var c :| c in w.receipts && w.receipts[c].request == r && w.receipts[c].run == Some(run);
    var d :| d in w.receipts && SameKey(w.receipts[d].request, r)
      && (r.generation < w.receipts[d].request.generation
           || (w.receipts[d].request == r && w.receipts[d].run == Some(other)));
    assert c == d;
  }

  lemma WitnessKeeps(w: World, r: Request, run: int)
    requires Inv(w) && Allowed(w, Witness(r, run))
    ensures Inv(Apply(w, Witness(r, run)))
  {
    hide Grounded, FollowsWitnessed, ReceiptOk, Justified, Recorded;
    var next := Apply(w, Witness(r, run));
    assert next.log == w.log + [Witnessed(r, run)];
    forall d | d in next.receipts ensures ReceiptOk(next.log, next.receipts[d]) {
      ReceiptLater(w.log, [Witnessed(r, run)], next.receipts[d]);
    }
    WitnessJustified(w.log, r, run);
    JustifiedLater(w.log, Witnessed(r, run));
    forall x | Sent(x) in next.log ensures Recorded(next, x) {
      assert Sent(x) in w.log;
      SameRecorded(w, next, x);
    }
    forall x, a, b | Witnessed(x, a) in next.log && Witnessed(x, b) in next.log ensures a == b {
      if x == r {
        if Witnessed(x, a) in w.log { WitnessAgain(w, r, run, a); }
        if Witnessed(x, b) in w.log { WitnessAgain(w, r, run, b); }
      }
    }
  }

  lemma WitnessJustified(log: seq<Event>, r: Request, run: int)
    ensures Justified(log + [Witnessed(r, run)], |log|)
  {
  }

  lemma SameRecorded(w: World, v: World, r: Request)
    requires w.receipts == v.receipts && Recorded(w, r)
    ensures Recorded(v, r)
  {
  }

  lemma StepKeeps(w: World, e: Effect)
    requires Inv(w) && Allowed(w, e)
    ensures Inv(Apply(w, e))
  {
    hide Inv, Apply, Allowed;
    match e
    case Write(check, receipt) => WriteKeeps(w, check, receipt);
    case Send(r) => SendKeeps(w, r);
    case Witness(r, run) => WitnessKeeps(w, r, run);
  }

  ghost predicate AllAllowed(w: World, es: seq<Effect>)
    decreases |es|
  {
    es == [] || (Allowed(w, es[0]) && AllAllowed(Apply(w, es[0]), es[1..]))
  }

  lemma {:induction false} CutKeeps(w: World, es: seq<Effect>, steps: nat)
    requires Inv(w) && AllAllowed(w, es)
    ensures Inv(ApplyAll(w, Cut(es, steps)))
    decreases |es|
  {
    hide Inv, Allowed, Apply;
    if es != [] && steps > 0 {
      StepKeeps(w, es[0]);
      CutKeeps(Apply(w, es[0]), es[1..], steps - 1);
      assert Cut(es, steps)[0] == es[0] && Cut(es, steps)[1..] == Cut(es[1..], steps - 1);
    }
  }

  // ----- The operations respect it -----

  lemma FirstWrite(w: World, sha: string, profile: Profile, retry: bool, unused: int)
    requires Inv(w) && unused !in w.receipts && Decision(w, sha, profile, retry, unused).Some?
    ensures var first := Decision(w, sha, profile, retry, unused).value;
      first.Write? && first.receipt.status == Pending && Allowed(w, first) && Sent(first.receipt.request) !in w.log
  {
    hide Justified, ReceiptOk;
    var existing := Existing(w, sha, profile);
    var first := Decision(w, sha, profile, retry, unused).value;
    var r := first.receipt.request;
    if existing == {} {
      assert forall c :: c in w.receipts && SameKey(w.receipts[c].request, r) ==> c in existing;
    } else {
      var check := The(existing);
      assert check in existing;
      assert first == Write(check, Renewed(w.receipts[check]));
    }
    assert Recorded(w, r) ==> existing != {} by {
      assert forall c :: c in w.receipts && SameKey(w.receipts[c].request, r) ==> c in existing;
    }
    assert !Recorded(w, r);
  }

  lemma DispatchAllowed(w: World, sha: string, profile: Profile, retry: bool, apply: bool, unused: int, a: Answers)
    requires Inv(w) && unused !in w.receipts
    ensures AllAllowed(w, DispatchEffects(w, sha, profile, retry, apply, unused, a))
  {
    hide Inv, Decision;
    var decision := Decision(w, sha, profile, retry, unused);
    if decision.Some? {
      FirstWrite(w, sha, profile, retry, unused);
      var first := decision.value;
      var r := first.receipt.request;
      var w1 := Apply(w, first);
      assert w1.receipts[first.check] == first.receipt && w1.log == w.log + [SavedPending(r)];
      var unknown := Write(first.check, first.receipt.(status := Unknown));
      var answered := Write(first.check, Answered(first.receipt, a.response));
      assert AllAllowed(w1, []) && AllAllowed(Apply(w1, unknown), []);
      assert [first, unknown][1..] == [unknown] && [unknown][1..] == [] && [first][1..] == [];
      assert AllAllowed(w1, [unknown]);
      var w2 := Apply(w1, Send(r));
      assert Allowed(w1, Send(r));
      assert Allowed(w2, answered);
      var es := [first, Send(r), answered];
      assert es[1..] == [Send(r), answered] && [Send(r), answered][1..] == [answered] && [answered][1..] == [];
      assert AllAllowed(w2, [answered]);
      assert AllAllowed(w1, [Send(r), answered]);
    }
  }

  lemma {:induction false} MarksAllowed(w: World, check: int, receipt: Receipt, marks: seq<Status>)
    requires check in w.receipts && w.receipts[check].request == receipt.request
              && w.receipts[check].previous == receipt.previous
    requires w.receipts[check].run == receipt.run && !Lost(w.receipts[check].status)
    requires receipt.run.Some? && Witnessed(receipt.request, receipt.run.value) in w.log && Verdicts(marks)
    ensures AllAllowed(w, Marks(check, receipt, marks))
    decreases |marks|
  {
    if marks != [] {
      var first := Write(check, receipt.(status := marks[0]));
      assert marks[0] in marks && forall m :: m in marks[1..] ==> m in marks;
      MarksAllowed(Apply(w, first), check, receipt, marks[1..]);
      assert Marks(check, receipt, marks)[1..] == Marks(check, receipt, marks[1..]);
    }
  }

  /** What `find_request` promises when it gives a receipt. */
  predicate FoundOn(w: World, run: int, check: int, adopt: seq<Effect>)
    requires run in w.runs
  {
    && check in w.receipts && w.runs[run].title == Some(w.receipts[check].request)
    && if adopt == [] then w.receipts[check].run == Some(run) && !Lost(w.receipts[check].status)
       else adopt == [Write(check, Adopted(w.receipts[check], run))]
  }

  lemma FoundLost(w: World, run: int, visible: set<int>)
    requires run in w.runs && |LostFor(w, w.runs[run].head, w.runs[run].title)| == 1
    ensures var check := The(LostFor(w, w.runs[run].head, w.runs[run].title));
      && check in w.receipts && AllAllowed(w, RecoverEffects(w, check, visible))
      && (RecoverEffects(w, check, visible) == [Write(check, Adopted(w.receipts[check], run))] ==>
            FoundOn(w, run, check, RecoverEffects(w, check, visible)))
  {
    hide OfHead, RecoverEffects, Allowed;
    var lost := LostFor(w, w.runs[run].head, w.runs[run].title);
    assert The(lost) in lost;
    RecoverAllowed(w, The(lost), visible);
  }

  lemma Found(w: World, run: int, visible: set<int>)
    requires run in w.runs && Inv(w)
    ensures var (check, adopt) := Find(w, run, visible);
      AllAllowed(w, adopt) && (check.Some? ==> FoundOn(w, run, check.value, adopt))
  {
    hide OfHead, RecoverEffects, Allowed, LostFor, Justified, Recorded, WitnessesHeld, WitnessedOnce, Titles, Grounded;
    var head, title := w.runs[run].head, w.runs[run].title;
    var rows := WithRun(w, head, run);
    if rows == {} {
      if |LostFor(w, head, title)| == 1 {
        FoundLost(w, run, visible);
      }
    } else if |rows| == 1 {
      assert The(rows) in rows;
      assert ReceiptOk(w.log, w.receipts[The(rows)]);
    }
  }

  lemma RecoverAllowed(w: World, check: int, visible: set<int>)
    requires check in w.receipts && Lost(w.receipts[check].status)
    ensures AllAllowed(w, RecoverEffects(w, check, visible))
  {
  }

  lemma EvaluateAllowed(w: World, check: int, run: int, marks: seq<Status>)
    requires check in w.receipts && run in w.runs && Verdicts(marks)
    requires w.receipts[check].run == Some(run) && w.runs[run].title == Some(w.receipts[check].request)
    requires !Lost(w.receipts[check].status)
    ensures AllAllowed(w, EvaluateEffects(check, w.receipts[check], run, marks))
  {
    hide Marks, Verdicts;
    var found := w.receipts[check];
    var seen := Witness(found.request, run);
    var next := Apply(w, seen);
    assert next.log[|next.log| - 1] == Witnessed(found.request, run);
    MarksAllowed(next, check, found, marks);
    var rest := if found.status == Closed then [] else Marks(check, found, marks);
    assert ([seen] + rest)[1..] == rest && AllAllowed(next, rest);
  }

  lemma SettleAllowed(w: World, run: int, visible: set<int>, marks: seq<Status>)
    requires run in w.runs && Verdicts(marks) && Inv(w)
    ensures AllAllowed(w, SettleEffects(w, run, visible, marks))
  {
    hide Find, Verdicts, EvaluateEffects, Allowed, Inv;
    Found(w, run, visible);
    var (check, adopt) := Find(w, run, visible);
    if check.Some? {
      if adopt == [] {
        EvaluateAllowed(w, check.value, run, marks);
        var es := EvaluateEffects(check.value, w.receipts[check.value], run, marks);
        assert adopt + es == es;
      } else {
        var next := Apply(w, adopt[0]);
        EvaluateAllowed(next, check.value, run, marks);
        var es := EvaluateEffects(check.value, next.receipts[check.value], run, marks);
        assert (adopt + es)[1..] == es && (adopt + es)[0] == adopt[0];
      }
    }
  }

  lemma AnnotateAllowed(w: World, check: int, status: Status)
    requires Inv(w) && Possible(w, Annotate(check, status))
    ensures AllAllowed(w, [Write(check, w.receipts[check].(status := status))])
  {
    hide Justified, Recorded, WitnessesHeld, WitnessedOnce, Titles, Grounded, FollowsWitnessed;
    assert ReceiptOk(w.log, w.receipts[check]);
  }

  lemma CommandAllowed(w: World, c: Command)
    requires Inv(w) && Possible(w, c)
    ensures AllAllowed(w, Effects(w, c))
  {
    hide Inv, DispatchEffects, SettleEffects;
    match c
    case Dispatch(sha, profile, retry, apply, unused, answers) =>
        DispatchAllowed(w, sha, profile, retry, apply, unused, answers);
    case Recover(check, visible) => RecoverAllowed(w, check, visible);
    case Settle(run, visible, marks) => SettleAllowed(w, run, visible, marks);
    case Annotate(check, status) => AnnotateAllowed(w, check, status);
    case Elsewhere(_) =>
  }

  lemma ExecuteKeeps(w: World, c: Command, steps: nat)
    requires Inv(w)
    ensures Inv(Execute(w, c, steps))
  {
    hide AllAllowed, Effects;
    if Possible(w, c) && !c.Elsewhere? {
      hide Inv;
      CommandAllowed(w, c);
      CutKeeps(w, Effects(w, c), steps);
    } else {
      hide Justified, ReceiptOk, OneReceiptEach;
    }
  }

  lemma {:induction false} OperateKeeps(w: World, cs: seq<(Command, nat)>)
    requires Inv(w)
    ensures Inv(Operate(w, cs))
    decreases |cs|
  {
    hide Inv, Execute;
    if cs != [] {
      ExecuteKeeps(w, cs[0].0, cs[0].1);
      OperateKeeps(Execute(w, cs[0].0, cs[0].1), cs[1..]);
    }
  }

  lemma StartInv()
    ensures Inv(START)
  {
  }
}
