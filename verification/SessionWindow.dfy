/**
 The one window in which a gap at a workflow action arises: a call is killed after it has saved
 its intent to qualify, to dry-run or to publish, and before it submits it.
 */
module SessionWindow {
  import opened Results
  import opened Session
  import opened SessionProtocol
  import opened SessionRuns
  import opened SessionTheorems
  import opened SessionPrefix

  /** The state on disk has the action pending. */
  predicate Holds(w: World, sid: SessionId, a: Action) {
    sid in w.states && w.states[sid].pending.Some? && w.states[sid].pending.value.action == a
  }

  /** The effect writes a state that has the action pending. */
  predicate Writes(e: Effect, a: Action) {
    e.Replace? && e.state.pending.Some? && e.state.pending.value.action == a
  }

  predicate Keeps(e: Effect, a: Action) {
    e.Replace? ==> Writes(e, a)
  }

  predicate Raises(e: Effect, rank: nat) {
    e.Replace? && PhaseRank(BasePhase(e.state)) > rank
  }

  /** Nothing is submitted, and the action stays pending until it is accepted. */
  ghost predicate Waits(es: seq<Effect>, a: Action, rank: nat) {
    NoSubmit(es) && forall e :: e in es ==> Keeps(e, a) || Raises(e, rank)
  }

  lemma WaitsConcat(es: seq<Effect>, fs: seq<Effect>, a: Action, rank: nat)
    requires Waits(es, a, rank) && Waits(fs, a, rank)
    ensures Waits(es + fs, a, rank)
  {
    hide Keeps, Raises;
  }

  lemma ReconcileWaits(state: State, pending: Pending, input: Input)
    requires state.pending == Some(pending) && !Repairable(pending.action)
    requires !Finished(state.phase) && Next(state.phase) == Some(pending.action)
    ensures Waits(ReconcileOutcome(state, pending, input).effects, pending.action, PhaseRank(state.phase))
  {
    hide EffectOutcome;
    NextRank(state.phase, pending.action);
  }

  lemma AdvanceWaits(w: World, sid: SessionId, input: Input, a: Action)
    requires Inv(w) && Holds(w, sid, a) && !Repairable(a)
    ensures Waits(AdvanceOutcome(w, sid, input).effects, a, Rank(w, sid))
  {
    hide Inv, ReconcileOutcome;
    if Unfinished(w, sid) {
      var state := w.states[sid];
      PendingIsNext(w, sid);
      var granted := Saved(Granted(state, input));
      ReconcileWaits(state, state.pending.value, input);
      ReconcileWaits(granted, state.pending.value, input);
      WaitsConcat(SaveEffects(Granted(state, input), AuthorizationUpdated),
                  ProceedOutcome(granted, input).effects, a, Rank(w, sid));
      WaitsConcat(ClaimEffects(w), ClaimedOutcome(state, input).effects, a, Rank(w, sid));
    }
  }

  /** While a workflow action is pending, no call of its session submits anything. */
  lemma CallWaits(w: World, call: Call, a: Action)
    requires Inv(w) && Holds(w, call.sid, a) && !Repairable(a)
    ensures Waits(Effects(w, call), a, Rank(w, call.sid))
  {
    hide Inv, AdvanceOutcome;
    match call.request {
      case Advance(input) => AdvanceWaits(w, call.sid, input, a);
      case _ =>
    }
  }

  lemma {:induction false} OtherState(w: World, sid: SessionId, es: seq<Effect>, other: SessionId)
    requires other != sid
    ensures other in ApplyAll(w, sid, es).states <==> other in w.states
    ensures other in w.states ==> ApplyAll(w, sid, es).states[other] == w.states[other]
    decreases |es|
  {
    if es != [] {
      OtherState(Apply(w, sid, es[0]), sid, es[1..], other);
    }
  }

  /** A pending workflow action stays pending until its rank changes, and is not submitted. */
  lemma StillHeld(calls: seq<Call>, k: nat, sid: SessionId, a: Action)
    requires DistinctOperations(calls) && k < |calls| && !Repairable(a) && Holds(Run(calls[..k]), sid, a)
    requires Rank(Run(calls[..k + 1]), sid) == Rank(Run(calls[..k]), sid)
    ensures Holds(Run(calls[..k + 1]), sid, a)
    ensures !Survives(calls, k, sid, a)
  {
    hide Inv, Effects, AllowedAll, Run;
    var w, call := Run(calls[..k]), calls[k];
    var es := Cut(Effects(w, call), call.steps);
    RunInv(calls[..k]);
    NextRun(calls, k);
    if call.sid == sid {
      CallWaits(w, call, a);
      assert forall e :: e in es ==> e in Effects(w, call);
      FinalState(w, sid, es);
    } else {
      OtherState(w, call.sid, es, sid);
    }
  }

  lemma NextRun(calls: seq<Call>, k: nat)
    requires k < |calls|
    ensures Run(calls[..k + 1]) == Execute(Run(calls[..k]), calls[k])
  {
    assert calls[..k + 1][..k] == calls[..k];
  }

  lemma HeldRank(calls: seq<Call>, k: nat, sid: SessionId, a: Action)
    requires DistinctOperations(calls) && k <= |calls| && Holds(Run(calls[..k]), sid, a)
    ensures Rank(Run(calls[..k]), sid) == ActionRank(a)
  {
    hide Run;
    RunInv(calls[..k]);
    var w := Run(calls[..k]);
    assert SessionInv(w, sid);
    NextRank(BasePhase(w.states[sid]), a);
  }

  // ----- what is accepted was pending

  lemma IdleSameRank(w: World, call: Call)
    requires Inv(w) && (call.sid in w.states ==> w.states[call.sid].pending.None?)
    ensures SameRank(Effects(w, call), Rank(w, call.sid))
  {
    hide Inv, EffectOutcome;
    match call.request {
      case Advance(input) =>
        if Unfinished(w, call.sid) {
          IdleProceed(w.states[call.sid], input);
          IdleProceed(Saved(Granted(w.states[call.sid], input)), input);
        }
      case _ =>
    }
  }

  lemma IdleProceed(state: State, input: Input)
    requires !Finished(state.phase) && state.pending.None?
    ensures SameRank(ProceedOutcome(state, input).effects, PhaseRank(state.phase))
  {
    hide EffectOutcome;
    if Next(state.phase).Some? {
      EffectSameRank(state, Next(state.phase).value, input, false);
      EffectSameRank(state.(admitted := Some(input.admitted)), Next(state.phase).value, input, false);
    }
  }

  lemma AcceptedWasHeld(calls: seq<Call>, k: nat, sid: SessionId, a: Action)
    requires DistinctOperations(calls) && k < |calls| && AcceptedAt(calls, k, sid, a)
    ensures Holds(Run(calls[..k]), sid, a)
  {
    hide Inv, Effects, Run;
    var w, call := Run(calls[..k]), calls[k];
    var es := Cut(Effects(w, call), call.steps);
    RunInv(calls[..k]);
    NextRun(calls, k);
    if call.sid != sid {
      OtherState(w, call.sid, es, sid);
    } else {
      assert forall e :: e in es ==> e in Effects(w, call);
      FinalState(w, sid, es);
      if sid in w.states && w.states[sid].pending.Some? {
        var b := w.states[sid].pending.value.action;
        HeldRank(calls, k, sid, b);
        SameAction(a, b);
      } else {
        IdleSameRank(w, call);
      }
    }
  }

  lemma SameAction(a: Action, b: Action)
    ensures ActionRank(a) == ActionRank(b) ==> a == b
  {
  }

  // ----- the window

  /** Call k made the action pending and did not live to submit it. */
  ghost predicate Stranded(calls: seq<Call>, k: nat, sid: SessionId, a: Action)
    requires k < |calls|
  {
    && !Holds(Run(calls[..k]), sid, a) && Holds(Run(calls[..k + 1]), sid, a)
    && calls[k].sid == sid && !Survives(calls, k, sid, a)
  }

  lemma NothingHeld(calls: seq<Call>, sid: SessionId, a: Action)
    ensures !Holds(Run(calls[..0]), sid, a)
  {
  }

  /** The call that made a pending action pending. */
  lemma {:induction false} IntentCall(calls: seq<Call>, n: nat, sid: SessionId, a: Action) returns (k: nat)
    requires n <= |calls| && Holds(Run(calls[..n]), sid, a)
    ensures k < n && !Holds(Run(calls[..k]), sid, a) && Holds(Run(calls[..k + 1]), sid, a) && calls[k].sid == sid
  {
    hide Run, Effects;
    NothingHeld(calls, sid, a);
    k := n - 1;
    if Holds(Run(calls[..k]), sid, a) {
      k := IntentCall(calls, k, sid, a);
    } else {
      NextRun(calls, k);
      if calls[k].sid != sid {
        var w := Run(calls[..k]);
        OtherState(w, calls[k].sid, Cut(Effects(w, calls[k]), calls[k].steps), sid);
      }
    }
  }

  /** Between a stranded intent and its acceptance the action stays pending. */
  lemma {:induction false} HeldThroughout(calls: seq<Call>, k: nat, i: nat, j: nat, sid: SessionId, a: Action)
    requires DistinctOperations(calls) && k < i <= j < |calls| && !Repairable(a)
    requires Holds(Run(calls[..k + 1]), sid, a) && AcceptedAt(calls, j, sid, a)
    ensures Holds(Run(calls[..i]), sid, a)
    ensures i < j ==> !Survives(calls, i, sid, a)
    decreases i
  {
    hide Run, Rank, Holds, Survives;
    if k + 1 < i {
      HeldThroughout(calls, k, i - 1, j, sid, a);
      SteadyRank(calls, i - 1, j, sid, a);
      StillHeld(calls, i - 1, sid, a);
    }
    if i < j {
      SteadyRank(calls, i, j, sid, a);
      StillHeld(calls, i, sid, a);
    }
  }

  lemma SteadyRank(calls: seq<Call>, i: nat, j: nat, sid: SessionId, a: Action)
    requires DistinctOperations(calls) && i < j < |calls| && Holds(Run(calls[..i]), sid, a)
    requires AcceptedAt(calls, j, sid, a)
    ensures Rank(Run(calls[..i + 1]), sid) == Rank(Run(calls[..i]), sid)
  {
    hide Run, Rank, Holds;
    HeldRank(calls, i, sid, a);
    RankMonotone(calls, i, i + 1, sid);
    RankMonotone(calls, i + 1, j, sid);
  }

  /** An action that was not pending when it became so had not been submitted before. */
  lemma FreshIntent(calls: seq<Call>, k: nat, sid: SessionId, a: Action)
    requires DistinctOperations(calls) && k < |calls|
    requires !Holds(Run(calls[..k]), sid, a) && Holds(Run(calls[..k + 1]), sid, a)
    ensures !Earned(calls, k, sid, a)
  {
    hide Run, Earned, Rank;
    var w := Run(calls[..k]);
    if Earned(calls, k, sid, a) {
      EarnedIsLogged(calls, k, sid, a);
      RunInv(calls[..k]);
      LoggedRank(w, sid, a);
      HeldRank(calls, k + 1, sid, a);
      RankMonotone(calls, k, k + 1, sid);
    }
  }

  lemma LoggedRank(w: World, sid: SessionId, a: Action)
    requires Inv(w) && Logged(w.log, sid, a) && !Holds(w, sid, a)
    ensures ActionRank(a) < Rank(w, sid)
  {
    var x :| x in w.log && x.session == sid && x.action == a;
    assert SessionInv(w, sid);
  }

  /**
   A workflow action is accepted without having been submitted exactly when one call before was
   stranded at it.
   */
  lemma GapIffStranded(calls: seq<Call>, j: nat, sid: SessionId, a: Action)
    requires DistinctOperations(calls) && j < |calls| && AcceptedAt(calls, j, sid, a) && !Repairable(a)
    ensures !Earned(calls, j, sid, a) <==> exists k :: 0 <= k < j && Stranded(calls, k, sid, a)
  {
    hide Run, Rank, Holds, Survives, AcceptedAt;
    if !Earned(calls, j, sid, a) {
      AcceptedWasHeld(calls, j, sid, a);
      var k := IntentCall(calls, j, sid, a);
      assert Stranded(calls, k, sid, a);
    }
    if k :| 0 <= k < j && Stranded(calls, k, sid, a) {
      FreshIntent(calls, k, sid, a);
      forall i | 0 <= i < j ensures !Survives(calls, i, sid, a) {
        if k < i { HeldThroughout(calls, k, i, j, sid, a); }
      }
    }
  }

  // ----- the crash points of the window

  /** Killed after these steps, the last state written has the action pending, and the action was
      not submitted; and there was more to do. */
  ghost predicate Window(es: seq<Effect>, steps: nat, a: Action) {
    && !SubmitsWithin(es, steps, a)
    && steps < |es| && exists i: nat :: i < steps && LastWrite(es[..steps], i) && Writes(es[i], a)
  }

  /** Left to itself, a list of effects that makes the action pending submits or withdraws it. */
  ghost predicate Resolves(es: seq<Effect>, a: Action) {
    SubmitsWithin(es, |es|, a)
    || forall i :: 0 <= i < |es| && Writes(es[i], a) ==> exists m :: i < m < |es| && es[m].Replace? && !Writes(es[m], a)
  }

  lemma ResolvesAfter(es: seq<Effect>, fs: seq<Effect>, a: Action)
    requires (forall e :: e in es ==> !Writes(e, a)) && Resolves(fs, a)
    ensures Resolves(es + fs, a)
  {
    hide Writes;
    var all := es + fs;
    if SubmitsWithin(fs, |fs|, a) {
      var i :| 0 <= i < |fs| && fs[i].Submit? && fs[i].action == a;
      assert all[|es| + i] == fs[i];
    } else {
      assert forall i :: 0 <= i < |es| ==> all[i] == es[i] && es[i] in es;
      forall i | 0 <= i < |all| && Writes(all[i], a)
        ensures exists m :: i < m < |all| && all[m].Replace? && !Writes(all[m], a)
      {
        assert fs[i - |es|] == all[i];
        var m :| i - |es| < m < |fs| && fs[m].Replace? && !Writes(fs[m], a);
        assert all[|es| + m] == fs[m];
      }
    }
  }

  lemma EndResolves(es: seq<Effect>, last: Effect, a: Action)
    requires last.Replace? && !Writes(last, a)
    ensures Resolves(es + [last], a)
  {
    var all := es + [last];
    assert all[|es|] == last;
  }

  lemma SubmitResolves(es: seq<Effect>, action: Action, operation: OperationId, fs: seq<Effect>, a: Action)
    requires action != a ==> forall e :: e in es || e in fs ==> !Writes(e, a)
    ensures Resolves(es + [Submit(action, operation)] + fs, a)
  {
    var all := es + [Submit(action, operation)] + fs;
    assert all[|es|] == Submit(action, operation);
  }

  lemma EffectResolves(state: State, action: Action, input: Input, repair: bool, a: Action)
    requires state.pending.Some? ==> state.pending.value.action != a
    ensures Resolves(EffectOutcome(state, action, input, repair).effects, a)
  {
    hide EntryOf, Resolves, FaultyEffects;
    NothingResolves(a);
    var intent := IntentState(state, action, input, repair);
    var refused := Saved(intent).(pending := state.pending);
    var append := Append(EntryOf(Saved(refused), ValidationRefused(action)));
    var faulty := FaultyEffects(intent, action, input.intentFault);
    EndResolves(faulty + [append], Replace(Saved(refused)), a);
    assert faulty + [append] + [Replace(Saved(refused))] == faulty + SaveEffects(refused, ValidationRefused(action));
    var performed := PerformedState(Saved(intent), state.pending, input);
    SubmitResolves(SaveEffects(intent, Intent(action)), action, input.operation,
                   SaveEffects(performed, PerformedEvent(action, input)), a);
  }

  lemma ReconcileResolves(state: State, pending: Pending, input: Input, a: Action)
    requires state.pending == Some(pending) && pending.action != a
    ensures Resolves(ReconcileOutcome(state, pending, input).effects, a)
  {
    hide EffectOutcome, EntryOf, Resolves;
    EffectResolves(state, pending.action, input, true, a);
    QuietResolves([], a);
    if input.remote.Failed? {
      QuietResolves(SaveEffects(state.(pending := Some(pending.(failure := Some(input.remote.failure)))),
                                RemoteFailed(pending.action)), a);
    } else if input.remote.Observed? {
      QuietResolves(SaveEffects(Accepted(state, pending.action, input.remote.result), Reconciled(pending.action)), a);
    }
  }

  lemma ProceedResolves(state: State, input: Input, a: Action)
    requires state.pending.Some? ==> state.pending.value.action != a
    ensures Resolves(ProceedOutcome(state, input).effects, a)
  {
    hide EffectOutcome, ReconcileOutcome, EntryOf, Resolves;
    if state.pending.Some? {
      ReconcileResolves(state, state.pending.value, input, a);
    } else {
      QuietResolves([], a);
      QuietResolves(SaveEffects(CompletedState(state), PublicVerified) + [ReleaseLease], a);
      if Next(state.phase).Some? {
        var action, admission := Next(state.phase).value, state.(admitted := Some(input.admitted));
        QuietResolves(SaveEffects(admission, PreparationBlocked), a);
        EffectResolves(state, action, input, false, a);
        EffectResolves(admission, action, input, false, a);
      }
    }
  }

  lemma CallResolves(w: World, call: Call, a: Action)
    requires !Holds(w, call.sid, a)
    ensures Resolves(Effects(w, call), a)
  {
    hide ProceedOutcome, EntryOf, Resolves;
    match call.request {
      case Advance(input) =>
        NothingResolves(a);
        if Unfinished(w, call.sid) {
          var state := w.states[call.sid];
          var granted := Granted(state, input);
          ProceedResolves(state, input, a);
          ProceedResolves(Saved(granted), input, a);
          ResolvesAfter(SaveEffects(granted, AuthorizationUpdated), ProceedOutcome(Saved(granted), input).effects, a);
          ResolvesAfter(ClaimEffects(w), ClaimedOutcome(state, input).effects, a);
        }
      case _ =>
        QuietResolves(Effects(w, call), a);
    }
  }

  lemma NothingResolves(a: Action)
    ensures Resolves([], a) && Resolves([ReleaseLease], a) && Resolves([ClaimLease], a)
  {
  }

  lemma QuietResolves(es: seq<Effect>, a: Action)
    requires forall e :: e in es ==> !Writes(e, a)
    ensures Resolves(es, a)
  {
  }

  predicate NoWrite(es: seq<Effect>) {
    forall i :: 0 <= i < |es| ==> !es[i].Replace?
  }

  predicate LastWrite(es: seq<Effect>, i: nat) {
    i < |es| && es[i].Replace? && NoWrite(es[i + 1..])
  }

  lemma {:induction false} NothingWritten(w: World, sid: SessionId, es: seq<Effect>)
    requires NoWrite(es)
    ensures ApplyAll(w, sid, es).states == w.states
    decreases |es|
  {
    if es != [] {
      NothingWritten(Apply(w, sid, es[0]), sid, es[1..]);
    }
  }

  /** The session's state afterwards is the last one written. */
  lemma {:induction false} LastWritten(w: World, sid: SessionId, es: seq<Effect>, i: nat)
    requires LastWrite(es, i)
    ensures var w' := ApplyAll(w, sid, es); sid in w'.states && w'.states[sid] == es[i].state
    decreases |es|
  {
    hide NoWrite;
    if i > 0 {
      assert es[1..][i..] == es[i + 1..];
      LastWritten(Apply(w, sid, es[0]), sid, es[1..], i - 1);
    } else {
      NothingWritten(Apply(w, sid, es[0]), sid, es[1..]);
    }
  }

  lemma {:induction false} SomeLastWrite(es: seq<Effect>) returns (i: nat)
    requires !NoWrite(es)
    ensures LastWrite(es, i)
    decreases |es|
  {
    i := |es| - 1;
    if !es[i].Replace? {
      i := SomeLastWrite(es[..i]);
    }
  }

  /** A call is stranded exactly when it is killed in the window. */
  lemma StrandedIffKilled(calls: seq<Call>, k: nat, sid: SessionId, a: Action)
    requires k < |calls|
    ensures Stranded(calls, k, sid, a)
       <==> calls[k].sid == sid && !Holds(Run(calls[..k]), sid, a)
            && Window(EffectsAt(calls, k), calls[k].steps, a)
  {
    hide Run, Effects, SubmitsWithin, Resolves;
    var w, all, steps := Run(calls[..k]), EffectsAt(calls, k), calls[k].steps;
    NextRun(calls, k);
    if calls[k].sid == sid && !Holds(w, sid, a) && !SubmitsWithin(all, steps, a) {
      CallResolves(w, calls[k], a);
      CutInWindow(w, sid, all, steps, a);
    }
  }

  lemma CutInWindow(w: World, sid: SessionId, all: seq<Effect>, steps: nat, a: Action)
    requires !Holds(w, sid, a) && Resolves(all, a) && !SubmitsWithin(all, steps, a)
    ensures Holds(ApplyAll(w, sid, Cut(all, steps)), sid, a) <==> Window(all, steps, a)
  {
    hide SubmitsWithin, Resolves, NoWrite, LastWrite, ApplyAll;
    var es := Cut(all, steps);
    if NoWrite(es) {
      NothingWritten(w, sid, es);
      NoLastWrite(es);
    } else {
      var i := SomeLastWrite(es);
      LastWritten(w, sid, es, i);
      OneLastWrite(es, i);
      assert es[i] == all[i];
      if steps >= |all| && Writes(all[i], a) {
        WholeResolves(all, steps, i, a);
      }
    }
  }

  lemma NoLastWrite(es: seq<Effect>)
    requires NoWrite(es)
    ensures forall i: nat :: !LastWrite(es, i)
  {
  }

  lemma AfterLastWrite(es: seq<Effect>, i: nat)
    requires LastWrite(es, i)
    ensures forall j :: i < j < |es| ==> !es[j].Replace?
  {
    forall j | i < j < |es| ensures !es[j].Replace? {
      assert es[i + 1..][j - i - 1] == es[j];
    }
  }

  lemma OneLastWrite(es: seq<Effect>, i: nat)
    requires LastWrite(es, i)
    ensures i < |es| && forall j: nat :: LastWrite(es, j) ==> j == i
  {
    hide NoWrite;
    AfterLastWrite(es, i);
    forall j: nat | LastWrite(es, j) ensures j == i {
      AfterLastWrite(es, j);
    }
  }

  lemma WholeResolves(all: seq<Effect>, steps: nat, i: nat, a: Action)
    requires Resolves(all, a) && steps >= |all| && LastWrite(all, i) && Writes(all[i], a)
    ensures SubmitsWithin(all, steps, a)
  {
    AfterLastWrite(all, i);
    assert SubmitsWithin(all, |all|, a);
  }

  /** No acceptance that is followed by a submission was of a stranded workflow action, or of a tag
      whose every dispatching call was killed before its submission. */
  ghost predicate NothingStranded(calls: seq<Call>, sid: SessionId) {
    forall j, k, a, b :: 0 <= j < k < |calls| && AcceptedAt(calls, j, sid, a) && Survives(calls, k, sid, b) ==>
        if Repairable(a) then Earned(calls, j, sid, a)
        else forall i :: 0 <= i < j ==> !Stranded(calls, i, sid, a)
  }

  /** The prefix property by that one window. */
  lemma PrefixIffNothingStranded(calls: seq<Call>, sid: SessionId) returns (word: Word)
    requires DistinctOperations(calls)
    ensures ReleaseWord(Actions(Run(calls).log, sid), word)
    ensures Prefixed(word) <==> NothingStranded(calls, sid)
  {
    hide ReleaseWord, Prefixed, AcceptedAt, Survives, Earned, Stranded, Run;
    word := SubmissionsFormPrefix(calls, sid);
    forall j, a | 0 <= j < |calls| && AcceptedAt(calls, j, sid, a) && !Repairable(a)
      ensures Earned(calls, j, sid, a) <==> forall i :: 0 <= i < j ==> !Stranded(calls, i, sid, a)
    {
      GapIffStranded(calls, j, sid, a);
    }
  }
}
