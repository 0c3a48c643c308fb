/**
 When a session's submissions are a gapless prefix of qualify, dry-run, tag⁺, publish,
 github-release⁺.  The code promises only the order, so this module says exactly which runs keep
 the prefix, in terms of where the calls were killed, and what the state on disk can tell.
 */
module SessionPrefix {
  import opened Results
  import opened Session
  import opened SessionProtocol
  import opened SessionRuns
  import opened SessionTheorems

  /** No block is empty before one that is not. */
  predicate Prefixed(word: Word) {
    && (word.dryRun > 0 ==> word.qualify > 0) && (word.tag > 0 ==> word.dryRun > 0)
    && (word.publish > 0 ==> word.tag > 0) && (word.release > 0 ==> word.publish > 0)
  }

  lemma GaplessWord(log: seq<Submission>, sid: SessionId, word: Word)
    requires Ordered(log) && ReleaseWord(Actions(log, sid), word)
    ensures Gapless(log, sid) <==> Prefixed(word)
  {
    hide ReleaseWord, Actions;
    ActionsOrdered(log, sid);
    NonemptyBlocks(Actions(log, sid), word);
    Counts(word);
    GaplessActions(log, sid);
  }

  lemma GaplessActions(log: seq<Submission>, sid: SessionId)
    ensures Gapless(log, sid) <==>
              forall a, b :: ActionRank(a) < ActionRank(b) && Logged(log, sid, b) ==> Logged(log, sid, a)
  {
  }

  // ----- submissions by crash point

  /** A submission of the action is among the first `steps` effects. */
  predicate SubmitsWithin(es: seq<Effect>, steps: nat, a: Action) {
    exists i | 0 <= i < steps && i < |es| :: es[i].Submit? && es[i].action == a
  }

  /** Call k submits action a of session sid: it is killed, if at all, after that effect. */
  ghost predicate Survives(calls: seq<Call>, k: nat, sid: SessionId, a: Action)
    requires k < |calls|
  {
    calls[k].sid == sid && SubmitsWithin(EffectsAt(calls, k), calls[k].steps, a)
  }

  /** What call k would do if it were not killed. */
  function EffectsAt(calls: seq<Call>, k: nat): seq<Effect>
    requires k < |calls|
  {
    Effects(Run(calls[..k]), calls[k])
  }

  lemma {:induction false} SubmitsLand(w: World, sid: SessionId, es: seq<Effect>, action: Action,
      operation: OperationId)
    requires Submit(action, operation) in es
    ensures Submission(sid, action, operation) in ApplyAll(w, sid, es).log
    decreases |es|
  {
    var w1 := Apply(w, sid, es[0]);
    if es[0] == Submit(action, operation) {
      assert w1.log[|w.log|] == Submission(sid, action, operation);
      LogGrows(w1, sid, es[1..]);
    } else {
      SubmitsLand(w1, sid, es[1..], action, operation);
    }
  }

  lemma CallLogs(w: World, call: Call, sid: SessionId, a: Action)
    ensures Logged(Execute(w, call).log, sid, a)
       <==> Logged(w.log, sid, a) || (call.sid == sid && SubmitsWithin(Effects(w, call), call.steps, a))
  {
    hide Effects;
    var all := Effects(w, call);
    var es := Cut(all, call.steps);
    var log := Execute(w, call).log;
    LogGrows(w, call.sid, es);
    if Logged(log, sid, a) {
      var x :| x in log && x.session == sid && x.action == a;
      if x !in w.log {
        var i :| 0 <= i < |es| && es[i] == Submit(x.action, x.operation);
        assert all[i] == es[i];
      }
    }
    if Logged(w.log, sid, a) {
      var x :| x in w.log && x.session == sid && x.action == a;
      assert x in log;
    }
    if call.sid == sid && SubmitsWithin(all, call.steps, a) {
      var i :| 0 <= i < call.steps && i < |all| && all[i].Submit? && all[i].action == a;
      assert es[i] == all[i];
      SubmitsLand(w, sid, es, a, all[i].operation);
    }
  }

  lemma SurvivesInPrefix(calls: seq<Call>, n: nat, k: nat, sid: SessionId, a: Action)
    requires k < n <= |calls|
    ensures Survives(calls[..n], k, sid, a) == Survives(calls, k, sid, a)
  {
    hide Effects, Run, SubmitsWithin;
    assert calls[..n][..k] == calls[..k];
  }

  /** An action is in the log exactly when some call lived past its submission. */
  lemma {:induction false} LoggedIffSurvived(calls: seq<Call>, sid: SessionId, a: Action)
    ensures Logged(Run(calls).log, sid, a) <==> exists k :: 0 <= k < |calls| && Survives(calls, k, sid, a)
  {
    hide Execute, Effects, SubmitsWithin;
    if calls != [] {
      var n := |calls| - 1;
      var init := calls[..n];
      LoggedIffSurvived(init, sid, a);
      CallLogs(Run(init), calls[n], sid, a);
      forall k | 0 <= k < n ensures Survives(init, k, sid, a) == Survives(calls, k, sid, a) {
        SurvivesInPrefix(calls, n, k, sid, a);
      }
      assert Survives(calls, n, sid, a) <==>
               calls[n].sid == sid && SubmitsWithin(Effects(Run(init), calls[n]), calls[n].steps, a);
    }
  }

  // ----- ranks

  /** A session submits only actions of the rank it had before the call. */
  lemma {:induction false} SubmitsAtRank(w: World, sid: SessionId, es: seq<Effect>, i: nat)
    requires Inv(w) && AllowedAll(w, sid, es) && SameRank(es, Rank(w, sid))
    requires i < |es| && es[i].Submit?
    ensures ActionRank(es[i].action) == Rank(w, sid)
    decreases i
  {
    hide Inv, MayReplace, MaySubmit;
    if i == 0 {
      SubmitAtRank(w, sid, es[0].action, es[0].operation);
    } else {
      assert es[0] in es && forall x :: x in es[1..] ==> x in es;
      StepKeeps(w, sid, es[0]);
      SubmitsAtRank(Apply(w, sid, es[0]), sid, es[1..], i - 1);
    }
  }

  /** One call raises the rank of a session by at most one, and not when it submits. */
  lemma CallRank(calls: seq<Call>, k: nat, sid: SessionId)
    requires DistinctOperations(calls) && k < |calls|
    ensures Rank(Run(calls[..k]), sid) <= Rank(Run(calls[..k + 1]), sid) <= Rank(Run(calls[..k]), sid) + 1
    ensures forall a :: Survives(calls, k, sid, a) ==>
              ActionRank(a) == Rank(Run(calls[..k]), sid) == Rank(Run(calls[..k + 1]), sid)
  {
    hide Inv, Effects, AllowedAll, Logged, AllSubmitted;
    var head := calls[..k + 1];
    assert head[..|head| - 1] == calls[..k] && head[|head| - 1] == calls[k];
    RunInv(calls[..k]);
    LastCallAllowed(head);
    var w, call := Run(calls[..k]), calls[k];
    var all := Effects(w, call);
    var es := Cut(all, call.steps);
    CallShaped(w, call);
    assert forall e :: e in es ==> e in all;
    FinalState(w, call.sid, es);
    if call.sid != sid {
      OtherStates(w, call.sid, es, sid);
    } else {
      forall a | Survives(calls, k, sid, a)
        ensures ActionRank(a) == Rank(w, sid) == Rank(Run(head), sid)
      {
        var i :| 0 <= i < call.steps && i < |all| && all[i].Submit? && all[i].action == a;
        assert es[i] == all[i] && all[i] in all;
        SubmitsAtRank(w, sid, es, i);
      }
    }
  }

  lemma {:induction false} RankMonotone(calls: seq<Call>, i: nat, j: nat, sid: SessionId)
    requires DistinctOperations(calls) && i <= j <= |calls|
    ensures Rank(Run(calls[..i]), sid) <= Rank(Run(calls[..j]), sid)
    decreases j
  {
    hide Rank, Run;
    if i < j {
      RankMonotone(calls, i, j - 1, sid);
      CallRank(calls, j - 1, sid);
    }
  }

  lemma NoRankYet(calls: seq<Call>, sid: SessionId)
    ensures Rank(Run(calls[..0]), sid) == 0
  {
  }

  /** The rank grows by acceptances only. */
  lemma {:induction false} AcceptedBefore(calls: seq<Call>, k: nat, sid: SessionId, a: Action) returns (j: nat)
    requires DistinctOperations(calls) && k <= |calls| && ActionRank(a) < Rank(Run(calls[..k]), sid)
    ensures j < k && AcceptedAt(calls, j, sid, a)
    decreases k
  {
    hide Run, Rank;
    j := 0;
    NoRankYet(calls, sid);
    if k > 0 {
      CallRank(calls, k - 1, sid);
      if ActionRank(a) < Rank(Run(calls[..k - 1]), sid) {
        j := AcceptedBefore(calls, k - 1, sid, a);
      } else {
        j := k - 1;
      }
    }
  }

  // ----- exactly the gapless runs

  /** Before call j accepted action a, some call had lived past its submission of a. */
  ghost predicate Earned(calls: seq<Call>, j: nat, sid: SessionId, a: Action)
    requires j < |calls|
  {
    exists i :: 0 <= i < j && Survives(calls, i, sid, a)
  }

  /** Every acceptance that is followed by a submission was earned. */
  ghost predicate NothingSkipped(calls: seq<Call>, sid: SessionId) {
    forall j, k, a, b :: 0 <= j < k < |calls| && AcceptedAt(calls, j, sid, a) && Survives(calls, k, sid, b)
      ==> Earned(calls, j, sid, a)
  }

  lemma GaplessIff(calls: seq<Call>, sid: SessionId)
    requires DistinctOperations(calls)
    ensures Gapless(Run(calls).log, sid) <==> NothingSkipped(calls, sid)
  {
    hide Run, Survives, AcceptedAt;
    GaplessActions(Run(calls).log, sid);
    if NothingSkipped(calls, sid) {
      forall a, b | ActionRank(a) < ActionRank(b) && Logged(Run(calls).log, sid, b)
        ensures Logged(Run(calls).log, sid, a)
      {
        LoggedIffSurvived(calls, sid, b);
        LoggedIffSurvived(calls, sid, a);
        var k :| 0 <= k < |calls| && Survives(calls, k, sid, b);
        CallRank(calls, k, sid);
        var j := AcceptedBefore(calls, k, sid, a);
        assert Earned(calls, j, sid, a);
      }
    }
    if Gapless(Run(calls).log, sid) {
      forall j, k, a, b | 0 <= j < k < |calls| && AcceptedAt(calls, j, sid, a) && Survives(calls, k, sid, b)
        ensures Earned(calls, j, sid, a)
      {
        GaplessEarns(calls, sid, j, k, a, b);
      }
    }
  }

  lemma GaplessEarns(calls: seq<Call>, sid: SessionId, j: nat, k: nat, a: Action, b: Action)
    requires DistinctOperations(calls) && Gapless(Run(calls).log, sid)
    requires j < k < |calls| && AcceptedAt(calls, j, sid, a) && Survives(calls, k, sid, b)
    ensures Earned(calls, j, sid, a)
  {
    hide Run, Survives, Rank;
    LoggedIffSurvived(calls, sid, b);
    LoggedIffSurvived(calls, sid, a);
    GaplessActions(Run(calls).log, sid);
    CallRank(calls, k, sid);
    CallRank(calls, j, sid);
    RankMonotone(calls, j + 1, k, sid);
    var i :| 0 <= i < |calls| && Survives(calls, i, sid, a);
    CallRank(calls, i, sid);
    if j < i { RankMonotone(calls, j + 1, i, sid); }
  }

  /**
   The prefix property, for every run: the submissions of a session form a word of
   qualify? dry-run? tag* publish? github-release*, and that word is a gapless prefix of the
   full release if and only if no acceptance that is followed by a submission was of an action
   whose every dispatching call had been killed before its submission.
   */
  lemma SubmissionsFormPrefix(calls: seq<Call>, sid: SessionId) returns (word: Word)
    requires DistinctOperations(calls)
    ensures ReleaseWord(Actions(Run(calls).log, sid), word)
    ensures Prefixed(word) <==> NothingSkipped(calls, sid)
  {
    hide ReleaseWord, Prefixed, NothingSkipped, Gapless;
    word := SubmissionsFormWord(calls, sid);
    RunInv(calls);
    GaplessWord(Run(calls).log, sid, word);
    GaplessIff(calls, sid);
  }

  /** Every accepted action was submitted exactly when every acceptance was earned. */
  lemma AllSubmittedIff(calls: seq<Call>, sid: SessionId)
    requires DistinctOperations(calls)
    ensures AllSubmitted(Run(calls), sid) <==>
              forall k, a :: 0 <= k < |calls| && AcceptedAt(calls, k, sid, a) ==> Earned(calls, k, sid, a)
  {
    hide Run, AllSubmitted, AcceptedAt, Earned, Logged;
    AcceptancesLogged(calls, sid);
    forall k, a | 0 <= k < |calls| ensures Logged(Run(calls[..k]).log, sid, a) <==> Earned(calls, k, sid, a) {
      EarnedIsLogged(calls, k, sid, a);
    }
  }

  lemma EarnedIsLogged(calls: seq<Call>, k: nat, sid: SessionId, a: Action)
    requires k < |calls|
    ensures Logged(Run(calls[..k]).log, sid, a) <==> Earned(calls, k, sid, a)
  {
    hide Run, Survives, Logged;
    LoggedIffSurvived(calls[..k], sid, a);
    forall i | 0 <= i < k ensures Survives(calls[..k], i, sid, a) == Survives(calls, i, sid, a) {
      SurvivesInPrefix(calls, k, i, sid, a);
    }
  }

  /** A run that ends with a submission is gapless exactly when every acceptance in it was earned. */
  lemma NextSubmissionGapless(calls: seq<Call>, sid: SessionId, b: Action)
    requires DistinctOperations(calls) && calls != [] && Survives(calls, |calls| - 1, sid, b)
    ensures Gapless(Run(calls).log, sid) <==>
              forall j, a :: 0 <= j < |calls| - 1 && AcceptedAt(calls, j, sid, a) ==> Earned(calls, j, sid, a)
  {
    hide Run, Survives, AcceptedAt, Earned, Gapless;
    GaplessIff(calls, sid);
  }

  // ----- what the state on disk can tell

  /** The pending action on disk, when call k begins, carries the flag of a write handed to the remote. */
  ghost predicate FlaggedAt(calls: seq<Call>, k: nat, sid: SessionId)
    requires k <= |calls|
  {
    sid in Run(calls[..k]).states && Flagged(Run(calls[..k]).states[sid])
  }

  /** A flag never lies: the flagged action was submitted by an earlier call. */
  lemma FlagIsEarned(calls: seq<Call>, k: nat, sid: SessionId, a: Action)
    requires DistinctOperations(calls) && k < |calls| && AcceptedAt(calls, k, sid, a) && FlaggedAt(calls, k, sid)
    ensures Earned(calls, k, sid, a)
  {
    hide Run, Survives;
    RunInv(calls[..k]);
    var w := Run(calls[..k]);
    assert SessionInv(w, sid) && FlagsBacked(w.log, sid, w.states[sid]);
    NextRank(BasePhase(w.states[sid]), w.states[sid].pending.value.action);
    EarnedIsLogged(calls, k, sid, a);
  }

  /**
   The test a caller can make before it calls `advance`: a run that accepts only pending actions
   flagged as submitted or unknown submits a gapless prefix, and everything it has accepted.
   */
  lemma FlaggedRunsFormPrefix(calls: seq<Call>, sid: SessionId) returns (word: Word)
    requires DistinctOperations(calls)
    requires forall k, a :: 0 <= k < |calls| && AcceptedAt(calls, k, sid, a) ==> FlaggedAt(calls, k, sid)
    ensures ReleaseWord(Actions(Run(calls).log, sid), word) && Prefixed(word)
    ensures AllSubmitted(Run(calls), sid)
  {
    hide ReleaseWord, Prefixed, AcceptedAt, FlaggedAt, Earned, AllSubmitted, Survives;
    forall k, a | 0 <= k < |calls| && AcceptedAt(calls, k, sid, a) ensures Earned(calls, k, sid, a) {
      FlagIsEarned(calls, k, sid, a);
    }
    word := SubmissionsFormPrefix(calls, sid);
    AllSubmittedIff(calls, sid);
  }
}
