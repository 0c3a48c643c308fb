/**
 `Coordinator` of qualification_automation.py, statement by statement, against a remote that may
 stop serving the process after any number of writes.  Each method is proved to leave the remote
 exactly as the effect list of module Coordinator says, cut where the process was killed.
 */
module CoordinatorRemote {
  import opened Results
  import opened Sorting
  import C = Coordinator
  import opened Coordinator
  import CoordinatorFacts

  /** From w with n writes left to `after` with m left: all the effects, or, when the process was
      killed, the first n of them. */
  ghost predicate Did(w: World, n: nat, after: World, m: nat, es: seq<Effect>, alive: bool) {
    && after == ApplyAll(w, Cut(es, n))
    && alive == (n >= |es|)
    && m == if alive then n - |es| else 0
  }

  lemma {:induction false} ApplyAllConcat(w: World, es: seq<Effect>, fs: seq<Effect>)
    ensures ApplyAll(w, es + fs) == ApplyAll(ApplyAll(w, es), fs)
    decreases |es|
  {
    if es == [] {
      assert es + fs == fs;
    } else {
      assert (es + fs)[0] == es[0] && (es + fs)[1..] == es[1..] + fs;
      ApplyAllConcat(Apply(w, es[0]), es[1..], fs);
    }
  }

  lemma DidMore(w0: World, n0: nat, w1: World, n1: nat, w2: World, n2: nat, es: seq<Effect>, fs: seq<Effect>,
      alive: bool)
    requires Did(w0, n0, w1, n1, es, true) && Did(w1, n1, w2, n2, fs, alive)
    ensures Did(w0, n0, w2, n2, es + fs, alive)
  {
    ApplyAllConcat(w0, es, Cut(fs, n1));
    assert Cut(es, n0) == es;
    assert Cut(es + fs, n0) == es + Cut(fs, n1);
  }

  lemma KilledEarly(w0: World, n0: nat, w1: World, n1: nat, es: seq<Effect>, fs: seq<Effect>)
    requires Did(w0, n0, w1, n1, es, false)
    ensures Did(w0, n0, w1, n1, es + fs, false)
  {
    assert Cut(es + fs, n0) == Cut(es, n0);
  }

  lemma DidOne(w: World, n: nat, e: Effect)
    requires n > 0
    ensures Did(w, n, Apply(w, e), n - 1, [e], true)
  {
  }

  class Remote {
    var receipts: map<int, Receipt>
    var runs: map<int, Run>
    var steps: nat
    ghost var log: seq<Event>

    ghost function World(): World
      reads this
    {
      C.World(receipts, runs, log)
    }

    /** `save`: a check run is created or patched. */
    method Save(check: int, receipt: Receipt) returns (alive: bool)
      modifies this
      ensures Did(old(World()), old(steps), World(), steps, [Write(check, receipt)], alive)
      ensures runs == old(runs)
    {
      if steps == 0 {
        return false;
      }
      DidOne(World(), steps, Write(check, receipt));
      receipts := receipts[check := receipt];
      log := if receipt.status == Pending then log + [SavedPending(receipt.request)] else log;
      steps := steps - 1;
      alive := true;
    }

    /** The workflow dispatch request. */
    method Request(request: Request) returns (alive: bool)
      modifies this
      ensures Did(old(World()), old(steps), World(), steps, [Send(request)], alive)
      ensures runs == old(runs)
    {
      if steps == 0 {
        return false;
      }
      DidOne(World(), steps, Send(request));
      log := log + [Sent(request)];
      steps := steps - 1;
      alive := true;
    }

    /** Reading that a run is completed writes nothing; it is counted as a step of its own. */
    method Authenticate(request: Request, run: int) returns (alive: bool)
      modifies this
      ensures Did(old(World()), old(steps), World(), steps, [Witness(request, run)], alive)
      ensures runs == old(runs) && receipts == old(receipts)
    {
      if steps == 0 {
        return false;
      }
      DidOne(World(), steps, Witness(request, run));
      log := log + [Witnessed(request, run)];
      steps := steps - 1;
      alive := true;
    }

    /** The end of `dispatch`: persist before sending. */
    method PersistAndSend(check: int, receipt: Receipt, a: Answers) returns (alive: bool)
      modifies this
      ensures Did(old(World()), old(steps), World(), steps, SendEffects(check, receipt, a), alive)
    {
      hide ApplyAll, Did, Answered;
      ghost var w0, n0, first := World(), steps, [Write(check, receipt)];
      ghost var later := SendEffects(check, receipt, a)[1..];
      assert SendEffects(check, receipt, a) == first + later;
      alive := Save(check, receipt);
      ghost var w1, n1 := World(), steps;
      if !alive {
        KilledEarly(w0, n0, w1, n1, first, later);
        return;
      }
      if !a.saved {
        assert first + later == first;
        return;
      }
      if a.mainStill {
        alive := Request(receipt.request);
        ghost var w2, n2, second := World(), steps, [Send(receipt.request)];
        DidMore(w0, n0, w1, n1, w2, n2, first, second, alive);
        var last := Answered(receipt, a.response);
        ghost var third := [Write(check, last)];
        assert first + later == first + second + third;
        if !alive {
          KilledEarly(w0, n0, w2, n2, first + second, third);
          return;
        }
        alive := Save(check, last);
        DidMore(w0, n0, w2, n2, World(), steps, first + second, third, alive);
      } else {
        alive := Save(check, receipt.(status := Unknown));
        DidMore(w0, n0, w1, n1, World(), steps, first, later, alive);
      }
    }

    method Dispatch(sha: string, profile: Profile, retry: bool, apply: bool, unused: int, a: Answers)
      returns (alive: bool)
      requires unused !in receipts
      modifies this
      ensures Did(old(World()), old(steps), World(), steps,
                  DispatchEffects(old(World()), sha, profile, retry, apply, unused, a), alive)
    {
      hide ApplyAll, Did, SendEffects, Recent, Retryable;
      Nothing(World(), steps);
      ghost var w0, n0 := World(), steps;
      var existing := set check | check in receipts && SameKey(receipts[check].request, C.Request(sha, profile, 0));
      assert existing == Existing(w0, sha, profile);
      if |existing| > 1 {
        return true;
      }
      var generation, history := 0, [];
      var check := unused;
      if existing != {} {
        assert |existing| == 1 by { CountOne(existing); }
        check := The(existing);
        assert check in existing;
        var prior := receipts[check];
        if !retry || !Retryable(prior.status) {
          return true;
        }
        generation := prior.request.generation + 1;
        history := Recent(prior.previous + [Previous(prior.run, prior.request)]);
      }
      var receipt := Receipt(C.Request(sha, profile, generation), Pending, None, history);
      assert Decision(w0, sha, profile, retry, unused) == Some(Write(check, receipt));
      if !apply || !a.main || !a.pinned {
        return true;
      }
      alive := PersistAndSend(check, receipt, a);
    }

    /** `recover_dispatch`, for a receipt on the remote; it raises when the runs are ambiguous or
        the run is not trusted. */
    method RecoverDispatch(check: int, visible: set<int>) returns (alive: bool, recovered: Option<Receipt>)
      requires check in receipts
      modifies this
      ensures Did(old(World()), old(steps), World(), steps, RecoverEffects(old(World()), check, visible), alive)
      ensures var es := RecoverEffects(old(World()), check, visible);
        if es == [] then recovered.Some? ==> recovered.value == old(receipts[check])
        else recovered == Some(es[0].receipt)
    {
      hide ApplyAll, Did;
      Nothing(World(), steps);
      var receipt := receipts[check];
      var matched := set run | run in visible && run in runs && runs[run].head == receipt.request.sha
                               && runs[run].title == Some(receipt.request);
      assert matched == Titled(World(), visible, receipt.request);
      if matched == {} {
        return true, Some(receipt);
      }
      if |matched| != 1 {
        return true, None;
      }
      assert The(matched) in matched;
      if !runs[The(matched)].trusted {
        return true, None;
      }
      receipt := receipt.(status := Status.Dispatched, run := Some(The(matched)));
      recovered := Some(receipt);
      alive := Save(check, receipt);
    }

    /** The statuses that the evaluation of a run saves on its receipt. */
    method Update(check: int, receipt: Receipt, marks: seq<Status>) returns (alive: bool)
      modifies this
      ensures Did(old(World()), old(steps), World(), steps, Marks(check, receipt, marks), alive)
    {
      hide ApplyAll, Did;
      ghost var w0, n0 := World(), steps;
      Nothing(World(), steps);
      alive := true;
      for i := 0 to |marks|
        invariant alive && Did(w0, n0, World(), steps, Marks(check, receipt, marks[..i]), alive)
      {
        ghost var w1, n1 := World(), steps;
        alive := Save(check, receipt.(status := marks[i]));
        ghost var now := [Write(check, receipt.(status := marks[i]))];
        DidMore(w0, n0, w1, n1, World(), steps, Marks(check, receipt, marks[..i]), now, alive);
        assert Marks(check, receipt, marks[..i + 1]) == Marks(check, receipt, marks[..i]) + now;
        if !alive {
          KilledEarly(w0, n0, World(), steps,
            Marks(check, receipt, marks[..i + 1]), Marks(check, receipt, marks[i + 1..]));
          assert Marks(check, receipt, marks) == Marks(check, receipt, marks[..i + 1])
                   + Marks(check, receipt, marks[i + 1..]);
          return;
        }
      }
      assert marks[..|marks|] == marks;
    }
  }

  lemma Nothing(w: World, n: nat)
    ensures Did(w, n, w, n, [], true)
  {
  }

  lemma CountOne(s: set<int>)
    requires s != {} && |s| <= 1
    ensures |s| == 1
  {
  }

  /** `find_request` */
  method FindRequest(remote: Remote, run: int, visible: set<int>)
    returns (alive: bool, check: Option<int>, found: Option<Receipt>)
    requires run in remote.runs
    modifies remote
    ensures var (wanted, adopt) := Find(old(remote.World()), run, visible);
      Did(old(remote.World()), old(remote.steps), remote.World(), remote.steps, adopt, alive)
      && check == wanted
      && found == if wanted.None? then None else Some(FoundReceipt(old(remote.World()), wanted.value, run, adopt))
  {
    hide ApplyAll, Did, OfHead, RecoverEffects;
    ghost var w0, n0 := remote.World(), remote.steps;
    Nothing(w0, n0);
    check, found := None, None;
    var head, title := remote.runs[run].head, remote.runs[run].title;
    var saved := OfHead(C.World(remote.receipts, remote.runs, []), head);
    SameHead(w0, C.World(remote.receipts, remote.runs, []), head);
    if exists c :: c in saved && exists p :: p in remote.receipts[c].previous && p.run == Some(run) {
      return true, None, None;
    }
    var rows := set c | c in saved && remote.receipts[c].run == Some(run);
    assert rows == WithRun(w0, head, run);
    if rows == {} {
      var lost := set c | c in saved && Lost(remote.receipts[c].status) && title == Some(remote.receipts[c].request);
      assert lost == LostFor(w0, head, title);
      if |lost| != 1 {
        return true, None, None;
      }
      assert The(lost) in lost;
      AdoptShape(w0, The(lost), visible);
      alive, found := remote.RecoverDispatch(The(lost), visible);
      if found.Some? && found.value.run == Some(run) {
        check := Some(The(lost));
      } else {
        found := None;
      }
    } else {
      alive := true;
      if |rows| == 1 {
        assert The(rows) in rows;
        if title == Some(remote.receipts[The(rows)].request) {
          check, found := Some(The(rows)), Some(remote.receipts[The(rows)]);
        }
      }
    }
  }

  method Evaluate(remote: Remote, check: int, found: Receipt, run: int, marks: seq<Status>) returns (alive: bool)
    modifies remote
    ensures Did(old(remote.World()), old(remote.steps), remote.World(), remote.steps,
                EvaluateEffects(check, found, run, marks), alive)
  {
    hide ApplyAll, Did;
    ghost var w0, n0 := remote.World(), remote.steps;
    ghost var seen := [Witness(found.request, run)];
    ghost var rest := if found.status == Closed then [] else Marks(check, found, marks);
    alive := remote.Authenticate(found.request, run);
    ghost var w1, n1 := remote.World(), remote.steps;
    if !alive {
      KilledEarly(w0, n0, w1, n1, seen, rest);
      return;
    }
    if found.status == Closed {
      assert seen + rest == seen;
      return;
    }
    alive := remote.Update(check, found, marks);
    DidMore(w0, n0, w1, n1, remote.World(), remote.steps, seen, rest, alive);
  }

  /** `reconcile` on a completed qualification run. */
  method Reconcile(remote: Remote, run: int, visible: set<int>, marks: seq<Status>) returns (alive: bool)
    requires run in remote.runs && remote.runs[run].completed
    modifies remote
    ensures Did(old(remote.World()), old(remote.steps), remote.World(), remote.steps,
                SettleEffects(old(remote.World()), run, visible, marks), alive)
  {
    hide ApplyAll, Did, Find, EvaluateEffects, FoundReceipt;
    ghost var w0, n0 := remote.World(), remote.steps;
    ghost var adopt := Find(w0, run, visible).1;
    var check, found;
    alive, check, found := FindRequest(remote, run, visible);
    ghost var w1, n1 := remote.World(), remote.steps;
    if found.None? {
      return;
    }
    ghost var es := EvaluateEffects(check.value, found.value, run, marks);
    if !alive {
      KilledEarly(w0, n0, w1, n1, adopt, es);
      return;
    }
    alive := Evaluate(remote, check.value, found.value, run, marks);
    DidMore(w0, n0, w1, n1, remote.World(), remote.steps, adopt, es, alive);
  }

  lemma AdoptShape(w: World, check: int, visible: set<int>)
    requires check in w.receipts
    ensures var es := RecoverEffects(w, check, visible);
      es == [] || (es[0].Write? && es[0].receipt.run.Some?
          && es == [Write(check, Adopted(w.receipts[check], es[0].receipt.run.value))])
  {
  }

  lemma SameHead(w: World, v: World, head: string)
    requires w.receipts == v.receipts
    ensures OfHead(w, head) == OfHead(v, head)
  {
  }

  /** One process: it is killed after `steps` writes if its operation has more. */
  method Serve(remote: Remote, c: Command, steps: nat)
    modifies remote
    ensures remote.World() == Execute(old(remote.World()), c, steps)
  {
    hide ApplyAll, DispatchEffects, RecoverEffects, SettleEffects;
    remote.steps := steps;
    if !Possible(C.World(remote.receipts, remote.runs, []), c) {
      return;
    }
    var alive;
    match c {
      case Dispatch(sha, profile, retry, apply, unused, answers) =>
        alive := remote.Dispatch(sha, profile, retry, apply, unused, answers);
      case Recover(check, visible) =>
        var recovered;
        alive, recovered := remote.RecoverDispatch(check, visible);
      case Settle(run, visible, marks) =>
        alive := Reconcile(remote, run, visible, marks);
      case Annotate(check, status) =>
        alive := remote.Save(check, remote.receipts[check].(status := status));
      case Elsewhere(runs) =>
        remote.runs := runs;
    }
  }

  /** Any number of processes one after the other, from a remote without receipts. */
  method ServeAll(remote: Remote, cs: seq<(Command, nat)>)
    requires remote.World() == START
    modifies remote
    ensures remote.World() == Operate(START, cs) && CoordinatorFacts.Inv(remote.World())
  {
    hide Execute, CoordinatorFacts.Inv;
    for i := 0 to |cs|
      invariant Operate(remote.World(), cs[i..]) == Operate(START, cs)
    {
      assert cs[i..][1..] == cs[i + 1..];
      Serve(remote, cs[i].0, cs[i].1);
    }
    assert cs[|cs|..] == [];
    CoordinatorFacts.StartInv();
    CoordinatorFacts.OperateKeeps(START, cs);
  }
}
