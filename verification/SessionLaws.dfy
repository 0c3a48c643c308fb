/**
 What one call of `advance` does, told by what it finds and what it is answered, and not by the
 order of its statements: when it submits, what state it leaves, what it reports and journals.
 */
module SessionLaws {
  import opened Results
  import opened Session
  import opened SessionProtocol
  import opened SessionRuns
  import opened SessionTheorems
  import opened SessionPrefix
  import opened SessionWindow

  // ----- what has to hold for a submission

  /** The action that a call can submit: the next one, or the repair of a pending tag or release. */
  predicate Due(s: State, input: Input, a: Action) {
    || (s.pending.None? && Next(s.phase) == Some(a))
    || (s.pending.Some? && s.pending.value.action == a && a in {Tag, GithubRelease} && input.remote == RetrySafe)
  }

  /** The checkout is the candidate, and preparation evidence comes before the first dispatch only. */
  predicate Admissible(s: State, input: Input) {
    input.sourceAtStart && (input.preflight.Some? ==> s.phase == Prepared && s.pending.None?)
  }

  /** Every check that stands before the submission of an action. */
  predicate Vetted(s: State, input: Input, a: Action) {
    && s.phase !in {Complete, Superseded} && Admissible(s, input)
    && Due(s, input, a) && a in s.authorizations + input.authorize
    && (if a == Qualify then input.admitted else input.bundleOk)
    && input.prepared && input.sourceBeforeIntent && input.intentFault == NoFault && input.validated
  }

  /** A pending action whose observed result is verified for this candidate, and this version. */
  predicate Confirmed(s: State, input: Input) {
    && s.pending.Some? && input.remote.Observed?
    && input.remote.result.verified && input.remote.result.candidate == s.candidate
    && (s.pending.value.action == Qualify ==> input.remote.result.version == s.version)
  }

  predicate Finishing(s: State, input: Input) {
    s.pending.None? && s.phase == GithubReleased && input.publicVerified
  }

  predicate FailureSeen(s: State, input: Input) {
    s.pending.Some? && input.remote.Failed?
  }

  /** The action that is due, if its submission is vetted. */
  function Submitting(s: State, input: Input): (a: Option<Action>)
    ensures forall b :: Vetted(s, input, b) <==> a == Some(b)
  {
    var due := if s.pending.Some? then Some(s.pending.value.action) else Next(s.phase);
    if due.Some? && Vetted(s, input, due.value) then due else None
  }

  // ----- the submission

  /** What a list of effects submits, in order. */
  function Sends(es: seq<Effect>): seq<Effect> {
    if es == [] then [] else (if es[0].Submit? then [es[0]] else []) + Sends(es[1..])
  }

  lemma {:induction false} SendsConcat(es: seq<Effect>, fs: seq<Effect>)
    ensures Sends(es + fs) == Sends(es) + Sends(fs)
    decreases |es|
  {
    if es == [] {
      assert es + fs == fs;
    } else {
      assert (es + fs)[0] == es[0] && (es + fs)[1..] == es[1..] + fs;
      SendsConcat(es[1..], fs);
    }
  }

  lemma {:induction false} SendsNothing(es: seq<Effect>)
    requires NoSubmit(es)
    ensures Sends(es) == []
  {
    if es != [] {
      assert es[0] in es && forall e :: e in es[1..] ==> e in es;
      SendsNothing(es[1..]);
    }
  }

  lemma SaveSends(state: State, event: Event)
    ensures Sends(SaveEffects(state, event)) == []
  {
    SendsNothing(SaveEffects(state, event));
  }

  /** One submission, if any. */
  function Once(a: Option<Action>, input: Input): seq<Effect> {
    if a.Some? then [Submit(a.value, input.operation)] else []
  }

  lemma EffectSends(state: State, action: Action, input: Input, repair: bool)
    ensures Sends(EffectOutcome(state, action, input, repair).effects)
         == Once(if input.prepared && input.sourceBeforeIntent && input.intentFault == NoFault && input.validated
                 then Some(action) else None, input)
  {
    hide SaveEffects, FaultyEffects;
    var intent := IntentState(state, action, input, repair);
    if input.prepared && input.sourceBeforeIntent {
      if input.intentFault != NoFault || !input.validated {
        var refused := Saved(intent).(pending := state.pending);
        FaultySends(intent, action, input.intentFault);
        SendsConcat(FaultyEffects(intent, action, input.intentFault), SaveEffects(refused, ValidationRefused(action)));
        SaveSends(refused, ValidationRefused(action));
      } else {
        var performed := PerformedState(Saved(intent), state.pending, input);
        var first, submit := SaveEffects(intent, Intent(action)), [Submit(action, input.operation)];
        SendsConcat(first, submit);
        SendsConcat(first + submit, SaveEffects(performed, PerformedEvent(action, input)));
        SaveSends(intent, Intent(action));
        SaveSends(performed, PerformedEvent(action, input));
        assert submit[1..] == [] && Sends(submit) == submit;
      }
    }
  }

  lemma FaultySends(state: State, action: Action, fault: SaveFault)
    ensures Sends(FaultyEffects(state, action, fault)) == []
  {
    hide EntryOf;
    SendsNothing(FaultyEffects(state, action, fault));
  }

  lemma ReconcileSends(state: State, pending: Pending, input: Input)
    requires state.pending == Some(pending) && !Finished(state.phase) && Admissible(state, input)
    requires input.authorize <= state.authorizations
    ensures Sends(ReconcileOutcome(state, pending, input).effects) == Once(Submitting(state, input), input)
  {
    hide EffectOutcome, SaveEffects;
    match input.remote
    case Failed(failure) =>
      SaveSends(state.(pending := Some(pending.(failure := Some(failure)))), RemoteFailed(pending.action));
    case Observed(result) => SaveSends(Accepted(state, pending.action, result), Reconciled(pending.action));
    case RetrySafe => EffectSends(state, pending.action, input, true);
    case _ =>
  }

  lemma StartSends(state: State, input: Input)
    requires !Finished(state.phase) && Admissible(state, input) && input.authorize <= state.authorizations
    requires state.pending.None? && Next(state.phase).Some?
    ensures Sends(ProceedOutcome(state, input).effects) == Once(Submitting(state, input), input)
  {
    hide EffectOutcome, SaveEffects, Once, Sends;
    NothingSent(input);
    var admission, action := state.(admitted := Some(input.admitted)), Next(state.phase).value;
    SaveSends(admission, PreparationBlocked);
    EffectSends(state, action, input, false);
    EffectSends(admission, action, input, false);
  }

  lemma NothingSent(input: Input)
    ensures Sends([]) == Once(None, input) == [] && Sends([ReleaseLease]) == []
  {
    SendsNothing([ReleaseLease]);
  }

  lemma ProceedSends(state: State, input: Input)
    requires !Finished(state.phase) && Admissible(state, input) && input.authorize <= state.authorizations
    ensures Sends(ProceedOutcome(state, input).effects) == Once(Submitting(state, input), input)
  {
    hide EffectOutcome, ReconcileOutcome, SaveEffects, Once, Sends;
    NothingSent(input);
    if state.pending.Some? {
      ReconcileSends(state, state.pending.value, input);
    } else if Next(state.phase).Some? {
      StartSends(state, input);
    } else {
      SaveSends(CompletedState(state), PublicVerified);
      SendsConcat(SaveEffects(CompletedState(state), PublicVerified), [ReleaseLease]);
    }
  }

  /** The state in memory once the grants of the call are saved. */
  function Begun(s: State, input: Input): State {
    if Updates(s, input) then Saved(Granted(s, input)) else s
  }

  lemma BegunVetted(s: State, input: Input)
    ensures Submitting(Begun(s, input), input) == Submitting(s, input)
    ensures Admissible(Begun(s, input), input) <==> Admissible(s, input)
    ensures input.authorize <= Begun(s, input).authorizations == s.authorizations + input.authorize
  {
  }

  /** A call submits once, and exactly when the lease is free or its own and every check passes. */
  lemma CallSends(w: World, sid: SessionId, input: Input)
    ensures Sends(AdvanceOutcome(w, sid, input).effects)
         == Once(if sid in w.states && Claimable(w, sid) then Submitting(w.states[sid], input) else None, input)
  {
    hide ProceedOutcome, Due, SaveEffects;
    if Unfinished(w, sid) && Claimable(w, sid) {
      var s := w.states[sid];
      SendsConcat(ClaimEffects(w), ClaimedOutcome(s, input).effects);
      BegunVetted(s, input);
      if Admissible(s, input) {
        ProceedSends(Begun(s, input), input);
        var first := SaveEffects(Granted(s, input), AuthorizationUpdated);
        SaveSends(Granted(s, input), AuthorizationUpdated);
        SendsConcat(first, ProceedOutcome(Begun(s, input), input).effects);
      }
    }
  }

  // ----- the state it leaves

  /** The last state that a list of effects writes. */
  function Last(es: seq<Effect>, s: State): State
    decreases |es|
  {
    if es == [] then s else Last(es[1..], if es[0].Replace? then es[0].state else s)
  }

  lemma {:induction false} LastConcat(es: seq<Effect>, fs: seq<Effect>, s: State)
    ensures Last(es + fs, s) == Last(fs, Last(es, s))
    decreases |es|
  {
    if es == [] {
      assert es + fs == fs;
    } else {
      assert (es + fs)[0] == es[0] && (es + fs)[1..] == es[1..] + fs;
      LastConcat(es[1..], fs, if es[0].Replace? then es[0].state else s);
    }
  }

  lemma {:induction false} LastIsFinal(w: World, sid: SessionId, es: seq<Effect>)
    requires sid in w.states
    ensures sid in ApplyAll(w, sid, es).states
    ensures ApplyAll(w, sid, es).states[sid] == Last(es, w.states[sid])
    decreases |es|
  {
    if es != [] {
      LastIsFinal(Apply(w, sid, es[0]), sid, es[1..]);
    }
  }

  /** A state but for its revision. */
  function Bare(s: State): State {
    s.(revision := 0)
  }

  lemma SaveLast(state: State, event: Event, s: State)
    ensures Last(SaveEffects(state, event), s) == Saved(state)
  {
    var es := SaveEffects(state, event);
    assert Last(es, s) == Last(es[1..], s) == Last(es[1..][1..], Saved(state));
  }

  /** What the pending action looks like once it was submitted. */
  function Dispatched(s: State, input: Input, a: Action): Pending {
    Pending(a, input.operation, s.pending.Some?, input.performRaised, !input.performRaised,
            if !input.performRaised && s.pending.Some? then Some(s.pending.value.operation) else None, None)
  }

  lemma EffectLast(state: State, action: Action, input: Input, repair: bool, s: State)
    requires repair == state.pending.Some?
    ensures var t := Last(EffectOutcome(state, action, input, repair).effects, s);
            if !input.prepared || !input.sourceBeforeIntent then t == s
            else if input.intentFault != NoFault || !input.validated then
              Bare(t) == Bare(state) && t.revision > state.revision
            else
              && Bare(t) == Bare(state.(pending := Some(Dispatched(state, input, action))))
              && t.revision > state.revision
  {
    hide SaveEffects, FaultyEffects;
    if input.prepared && input.sourceBeforeIntent {
      var intent := IntentState(state, action, input, repair);
      if input.intentFault != NoFault || !input.validated {
        var refused := Saved(intent).(pending := state.pending);
        var faulty := FaultyEffects(intent, action, input.intentFault);
        LastConcat(faulty, SaveEffects(refused, ValidationRefused(action)), s);
        SaveLast(refused, ValidationRefused(action), Last(faulty, s));
      } else {
        var performed := PerformedState(Saved(intent), state.pending, input);
        var first := SaveEffects(intent, Intent(action)) + [Submit(action, input.operation)];
        LastConcat(first, SaveEffects(performed, PerformedEvent(action, input)), s);
        SaveLast(performed, PerformedEvent(action, input), Last(first, s));
      }
    }
  }

  /** Whether this call asks for admission and saves the answer. */
  predicate AdmissionSaved(s: State, input: Input) {
    && s.pending.None? && s.phase == Prepared && Qualify in s.authorizations + input.authorize
    && (input.admitted ==> input.prepared && input.sourceBeforeIntent)
  }

  function PendingLeft(s: State, input: Input): Option<Pending> {
    if Confirmed(s, input) then None
    else if FailureSeen(s, input) then Some(s.pending.value.(failure := Some(input.remote.failure)))
    else if Submitting(s, input).Some? then Some(Dispatched(s, input, Submitting(s, input).value))
    else s.pending
  }

  /** The state that a call leaves, field by field and but for its revision. */
  function Left(s: State, input: Input): State {
    s.(authorizations := s.authorizations + input.authorize,
       preflight := if input.preflight.Some? then input.preflight else s.preflight,
       admitted := if AdmissionSaved(s, input) then Some(input.admitted) else s.admitted,
       publicVerified := s.publicVerified || Finishing(s, input),
       records := if Confirmed(s, input) then s.records[s.pending.value.action := input.remote.result] else s.records,
       phase := if Confirmed(s, input) then PhaseAfter(s.pending.value.action)
                else if Finishing(s, input) then Complete else s.phase,
       pending := PendingLeft(s, input))
  }

  predicate Leaves(s: State, input: Input, t: State) {
    Bare(t) == Bare(Left(s, input)) && t.revision >= s.revision && (Bare(t) != Bare(s) ==> t.revision > s.revision)
  }

  /** The grants of the call are saved already. */
  predicate Granting(s: State, input: Input) {
    && !Finished(s.phase) && Admissible(s, input) && input.authorize <= s.authorizations
    && (input.preflight.Some? ==> s.preflight == input.preflight)
  }

  lemma NoNewGrants(s: State, input: Input)
    requires Granting(s, input)
    ensures s.authorizations + input.authorize == s.authorizations
  {
  }

  /** The three ways in which the left state can differ, when the grants are saved already. */
  lemma LeftCases(s: State, input: Input)
    requires Granting(s, input) && !Confirmed(s, input) && !FailureSeen(s, input) && !Finishing(s, input)
    ensures var asked := if AdmissionSaved(s, input) then s.(admitted := Some(input.admitted)) else s;
            Left(s, input) == match Submitting(s, input)
                              case None => asked
                              case Some(a) => asked.(pending := Some(Dispatched(s, input, a)))
  {
    hide Submitting;
    NoNewGrants(s, input);
  }

  lemma RepairLeaves(state: State, input: Input)
    requires Granting(state, input) && state.pending.Some? && input.remote == RetrySafe
    ensures Leaves(state, input, Last(ReconcileOutcome(state, state.pending.value, input).effects, state))
  {
    hide EffectOutcome, Left, Dispatched;
    NoNewGrants(state, input);
    LeftCases(state, input);
    EffectLast(state, state.pending.value.action, input, true, state);
  }

  lemma ReconcileLeaves(state: State, pending: Pending, input: Input)
    requires Granting(state, input) && state.pending == Some(pending)
    ensures Leaves(state, input, Last(ReconcileOutcome(state, pending, input).effects, state))
  {
    hide EffectOutcome, SaveEffects;
    NoNewGrants(state, input);
    match input.remote
    case Failed(failure) =>
      SaveLast(state.(pending := Some(pending.(failure := Some(failure)))), RemoteFailed(pending.action), state);
    case Observed(result) =>
      SaveLast(Accepted(state, pending.action, result), Reconciled(pending.action), state);
    case RetrySafe => RepairLeaves(state, input);
    case _ =>
  }

  lemma QualifyLeaves(state: State, input: Input)
    requires Granting(state, input) && state.pending.None? && state.phase == Prepared && Qualify in state.authorizations
    ensures Leaves(state, input, Last(ProceedOutcome(state, input).effects, state))
  {
    hide EffectOutcome, SaveEffects, Left;
    NoNewGrants(state, input);
    LeftCases(state, input);
    var admission := state.(admitted := Some(input.admitted));
    SaveLast(admission, PreparationBlocked, state);
    EffectLast(admission, Qualify, input, false, state);
  }

  lemma StartLeaves(state: State, input: Input)
    requires Granting(state, input) && state.pending.None? && Next(state.phase).Some?
    ensures Leaves(state, input, Last(ProceedOutcome(state, input).effects, state))
  {
    hide EffectOutcome, SaveEffects, Left, Dispatched;
    if state.phase == Prepared && Qualify in state.authorizations {
      QualifyLeaves(state, input);
    } else {
      NoNewGrants(state, input);
      LeftCases(state, input);
      EffectLast(state, Next(state.phase).value, input, false, state);
    }
  }

  lemma ProceedLeaves(state: State, input: Input)
    requires Granting(state, input)
    ensures Leaves(state, input, Last(ProceedOutcome(state, input).effects, state))
  {
    hide EffectOutcome, ReconcileOutcome, SaveEffects;
    NoNewGrants(state, input);
    if state.pending.Some? {
      ReconcileLeaves(state, state.pending.value, input);
    } else if Next(state.phase).Some? {
      StartLeaves(state, input);
    } else {
      SaveLast(CompletedState(state), PublicVerified, state);
      LastConcat(SaveEffects(CompletedState(state), PublicVerified), [ReleaseLease], state);
    }
  }

  lemma BegunLeaves(s: State, input: Input, t: State)
    requires Admissible(s, input) && Leaves(Begun(s, input), input, t)
    ensures Leaves(s, input, t)
  {
    BegunVetted(s, input);
  }

  /** A call that is not killed leaves exactly this state; one that is refused at the start leaves
      the state as it was. */
  lemma CallLeaves(w: World, sid: SessionId, input: Input)
    requires sid in w.states
    ensures var s := w.states[sid];
            var t := Last(AdvanceOutcome(w, sid, input).effects, s);
            if Unfinished(w, sid) && Claimable(w, sid) && Admissible(s, input) then Leaves(s, input, t) else t == s
  {
    hide ProceedOutcome, Leaves, SaveEffects;
    var s := w.states[sid];
    if Unfinished(w, sid) && Claimable(w, sid) {
      LastConcat(ClaimEffects(w), ClaimedOutcome(s, input).effects, s);
      if Admissible(s, input) {
        BegunVetted(s, input);
        ProceedLeaves(Begun(s, input), input);
        BegunLeaves(s, input, Last(ProceedOutcome(Begun(s, input), input).effects, Begun(s, input)));
        if Updates(s, input) {
          var first := SaveEffects(Granted(s, input), AuthorizationUpdated);
          SaveLast(Granted(s, input), AuthorizationUpdated, s);
          LastConcat(first, ProceedOutcome(Begun(s, input), input).effects, s);
        }
      }
    }
  }

  // ----- the lease

  function LeaseAfter(es: seq<Effect>, sid: SessionId, lease: Option<SessionId>): Option<SessionId>
    decreases |es|
  {
    if es == [] then lease
    else LeaseAfter(es[1..], sid, if es[0].ClaimLease? then Some(sid) else if es[0].ReleaseLease? then None else lease)
  }

  lemma {:induction false} LeaseConcat(es: seq<Effect>, fs: seq<Effect>, sid: SessionId, lease: Option<SessionId>)
    ensures LeaseAfter(es + fs, sid, lease) == LeaseAfter(fs, sid, LeaseAfter(es, sid, lease))
    decreases |es|
  {
    if es == [] {
      assert es + fs == fs;
    } else {
      assert (es + fs)[0] == es[0] && (es + fs)[1..] == es[1..] + fs;
      LeaseConcat(es[1..], fs, sid,
                  if es[0].ClaimLease? then Some(sid) else if es[0].ReleaseLease? then None else lease);
    }
  }

  predicate NoLease(es: seq<Effect>) {
    forall e :: e in es ==> !e.ClaimLease? && !e.ReleaseLease?
  }

  lemma {:induction false} LeaseKept(es: seq<Effect>, sid: SessionId, lease: Option<SessionId>)
    requires NoLease(es)
    ensures LeaseAfter(es, sid, lease) == lease
    decreases |es|
  {
    if es != [] {
      assert es[0] in es && forall e :: e in es[1..] ==> e in es;
      LeaseKept(es[1..], sid, lease);
    }
  }

  lemma EffectLease(state: State, action: Action, input: Input, repair: bool)
    ensures NoLease(EffectOutcome(state, action, input, repair).effects)
  {
    hide EntryOf;
  }

  lemma ProceedLease(state: State, input: Input, sid: SessionId, lease: Option<SessionId>)
    requires !Finished(state.phase)
    ensures LeaseAfter(ProceedOutcome(state, input).effects, sid, lease)
         == if Finishing(state, input) then None else lease
  {
    hide EffectOutcome, EntryOf;
    var es := ProceedOutcome(state, input).effects;
    if state.pending.Some? {
      EffectLease(state, state.pending.value.action, input, true);
      LeaseKept(es, sid, lease);
    } else if Next(state.phase).Some? {
      EffectLease(state, Next(state.phase).value, input, false);
      EffectLease(state.(admitted := Some(input.admitted)), Next(state.phase).value, input, false);
      LeaseKept(es, sid, lease);
    } else if input.publicVerified {
      var first := SaveEffects(CompletedState(state), PublicVerified);
      LeaseKept(first, sid, lease);
      LeaseConcat(first, [ReleaseLease], sid, lease);
      assert [ReleaseLease][1..] == [];
    }
  }

  /** Who holds the lease after the call. */
  function LeaseLeft(w: World, sid: SessionId, input: Input): Option<SessionId>
    requires sid in w.states
  {
    if Finished(w.states[sid].phase) then (if w.lease == Some(sid) then None else w.lease)
    else if !Claimable(w, sid) then w.lease
    else if Admissible(w.states[sid], input) && Finishing(w.states[sid], input) then None
    else Some(sid)
  }

  lemma CallLease(w: World, sid: SessionId, input: Input)
    requires sid in w.states
    ensures LeaseAfter(AdvanceOutcome(w, sid, input).effects, sid, w.lease) == LeaseLeft(w, sid, input)
  {
    hide ProceedOutcome, SaveEffects;
    var s := w.states[sid];
    assert [ClaimLease][1..] == [] && [ReleaseLease][1..] == [];
    if Unfinished(w, sid) && Claimable(w, sid) {
      LeaseConcat(ClaimEffects(w), ClaimedOutcome(s, input).effects, sid, w.lease);
      if Admissible(s, input) {
        ProceedLease(Begun(s, input), input, sid, Some(sid));
        var first := SaveEffects(Granted(s, input), AuthorizationUpdated);
        SaveLease(Granted(s, input), AuthorizationUpdated);
        LeaseKept(first, sid, Some(sid));
        LeaseConcat(first, ProceedOutcome(Begun(s, input), input).effects, sid, Some(sid));
      }
    }
  }

  lemma SaveLease(state: State, event: Event)
    ensures NoLease(SaveEffects(state, event))
  {
  }

  // ----- the law of one call

  lemma {:induction false} ApplyParts(w: World, sid: SessionId, es: seq<Effect>)
    ensures ApplyAll(w, sid, es).lease == LeaseAfter(es, sid, w.lease)
    ensures ApplyAll(w, sid, es).log == w.log + Submissions(sid, Sends(es))
    decreases |es|
  {
    if es != [] {
      ApplyParts(Apply(w, sid, es[0]), sid, es[1..]);
      var rest := Sends(es[1..]);
      if es[0].Submit? {
        assert ([es[0]] + rest)[1..] == rest && Sends(es)[0] == es[0];
        assert Submissions(sid, Sends(es)) == [Submission(sid, es[0].action, es[0].operation)] + Submissions(sid, rest);
      } else {
        assert Sends(es) == rest;
      }
    }
  }

  function Submissions(sid: SessionId, es: seq<Effect>): seq<Submission> {
    if es == [] then []
    else (if es[0].Submit? then [Submission(sid, es[0].action, es[0].operation)] else []) + Submissions(sid, es[1..])
  }

  /** No call has more effects: lease, grants, intent, submission and its result, and the release. */
  const LONGEST := 8

  lemma EffectLength(state: State, action: Action, input: Input, repair: bool)
    ensures |EffectOutcome(state, action, input, repair).effects| <= 5
  {
    hide EntryOf;
  }

  lemma CallLength(w: World, sid: SessionId, input: Input)
    ensures |AdvanceOutcome(w, sid, input).effects| <= LONGEST
  {
    hide EffectOutcome, EntryOf;
    if sid in w.states {
      var s := w.states[sid];
      forall state, action, repair ensures |EffectOutcome(state, action, input, repair).effects| <= 5 {
        EffectLength(state, action, input, repair);
      }
    }
  }

  /**
   The law of `advance`, for a call that is not killed.  It submits one action or none, decided by
   `Vetted`; the state it leaves is `Left`, or the old one when the lease or the checkout refuses;
   the lease is taken, kept or released; and nothing of another session changes.
   */
  lemma AdvanceLaw(w: World, sid: SessionId, input: Input, steps: nat)
    requires sid in w.states && steps >= LONGEST
    ensures var s, w' := w.states[sid], Execute(w, Call(sid, Advance(input), steps));
            var held := Unfinished(w, sid) && Claimable(w, sid);
            && sid in w'.states
            && (if held && Admissible(s, input) then Leaves(s, input, w'.states[sid]) else w'.states[sid] == s)
            && w'.log == w.log + (if held && Submitting(s, input).Some?
                                  then [Submission(sid, Submitting(s, input).value, input.operation)] else [])
            && w'.lease == LeaseLeft(w, sid, input)
            && (forall other :: other != sid ==>
                  (other in w'.states <==> other in w.states)
                  && (other in w.states ==> w'.states[other] == w.states[other]))
  {
    hide AdvanceOutcome, Leaves, Submitting, LeaseLeft;
    var es := AdvanceOutcome(w, sid, input).effects;
    CallLength(w, sid, input);
    LastIsFinal(w, sid, es);
    CallLeaves(w, sid, input);
    ApplyParts(w, sid, es);
    CallSends(w, sid, input);
    CallLease(w, sid, input);
    FinishedSubmitNothing(w.states[sid], input);
    forall other | other != sid
      ensures other in ApplyAll(w, sid, es).states <==> other in w.states
      ensures other in w.states ==> ApplyAll(w, sid, es).states[other] == w.states[other]
    {
      OtherState(w, sid, es, other);
    }
  }

  lemma FinishedSubmitNothing(s: State, input: Input)
    ensures Finished(s.phase) ==> Submitting(s, input).None?
  {
  }

  // ----- every state that a call writes, killed or not

  /** The intent or its result: under the call's own operation, for the action that is due. */
  predicate Intended(s: State, input: Input, a: Action, p: Option<Pending>) {
    && Due(s, input, a) && a in s.authorizations + input.authorize
    && (if a == Qualify then input.admitted else input.bundleOk) && input.prepared && input.sourceBeforeIntent
    && (p == Some(Pending(a, input.operation, s.pending.Some?, false, false, None, None))
        || (Vetted(s, input, a) && p == Some(Dispatched(s, input, a))))
  }

  predicate Stays(s: State, t: State) {
    t.phase == s.phase && t.records == s.records && t.publicVerified == s.publicVerified
  }

  predicate WritesResult(s: State, input: Input, t: State) {
    && Confirmed(s, input) && t.phase == PhaseAfter(s.pending.value.action) && t.pending.None?
    && t.records == s.records[s.pending.value.action := input.remote.result] && t.publicVerified == s.publicVerified
  }

  predicate WritesEnd(s: State, input: Input, t: State) {
    Finishing(s, input) && t.phase == Complete && t.publicVerified && t.records == s.records && t.pending.None?
  }

  ghost predicate WritesPending(s: State, input: Input, p: Option<Pending>) {
    || p == s.pending
    || (FailureSeen(s, input) && p == Some(s.pending.value.(failure := Some(input.remote.failure))))
    || exists a :: Intended(s, input, a, p)
  }

  /** What every written state says of the state before and of the call's input. */
  ghost predicate Wrote(s: State, input: Input, t: State) {
    && s.phase !in {Complete, Superseded} && Admissible(s, input)
    && t.candidate == s.candidate && t.version == s.version
    && t.supersededFrom == s.supersededFrom && t.tagRetained == s.tagRetained
    && t.authorizations == s.authorizations + input.authorize
    && t.preflight == (if input.preflight.Some? then input.preflight else s.preflight)
    && t.revision > s.revision
    && (t.admitted == s.admitted
        || (s.pending.None? && s.phase == Prepared && Qualify in s.authorizations + input.authorize
            && t.admitted == Some(input.admitted)))
    && (WritesResult(s, input, t) || WritesEnd(s, input, t) || (Stays(s, t) && WritesPending(s, input, t.pending)))
  }

  ghost predicate AllWrote(s: State, input: Input, es: seq<Effect>) {
    forall e :: e in es && e.Replace? ==> Wrote(s, input, e.state)
  }

  lemma AllWroteConcat(s: State, input: Input, es: seq<Effect>, fs: seq<Effect>)
    requires AllWrote(s, input, es) && AllWrote(s, input, fs)
    ensures AllWrote(s, input, es + fs)
  {
    hide Wrote;
  }

  /** The state in memory before an effect: the old one, with the answer to the admission at most. */
  predicate Prepares(s: State, input: Input, state: State) {
    && state.(admitted := s.admitted) == s
    && (state.admitted == s.admitted
        || (s.pending.None? && s.phase == Prepared && Qualify in s.authorizations + input.authorize
            && state.admitted == Some(input.admitted)))
  }

  lemma SaveWrites(s: State, input: Input, state: State, event: Event)
    requires Wrote(s, input, Saved(state))
    ensures AllWrote(s, input, SaveEffects(state, event))
  {
    hide Wrote;
  }

  lemma FaultyWrites(s: State, input: Input, state: State, action: Action, fault: SaveFault)
    requires AllWrote(s, input, SaveEffects(state, Intent(action)))
    ensures AllWrote(s, input, FaultyEffects(state, action, fault))
  {
    hide Wrote, EntryOf;
  }

  lemma IntentWrites(s: State, state: State, action: Action, input: Input, repair: bool)
    requires Granting(s, input) && Prepares(s, input, state) && repair == s.pending.Some?
    requires Due(s, input, action) && action in s.authorizations && input.prepared && input.sourceBeforeIntent
    requires if action == Qualify then input.admitted else input.bundleOk
    ensures var intent := IntentState(state, action, input, repair);
            && Wrote(s, input, Saved(intent))
            && Wrote(s, input, Saved(Saved(intent).(pending := state.pending)))
            && (input.intentFault == NoFault && input.validated ==>
                  Wrote(s, input, Saved(PerformedState(Saved(intent), state.pending, input))))
  {
    NoNewGrants(s, input);
    var intent := Saved(IntentState(state, action, input, repair));
    assert Intended(s, input, action, intent.pending);
    if input.intentFault == NoFault && input.validated {
      assert Intended(s, input, action, PerformedState(intent, state.pending, input).pending);
    }
  }

  lemma EffectWrites(s: State, state: State, action: Action, input: Input, repair: bool)
    requires Granting(s, input) && Prepares(s, input, state) && repair == s.pending.Some?
    requires Due(s, input, action) && action in s.authorizations
    requires if action == Qualify then input.admitted else input.bundleOk
    ensures AllWrote(s, input, EffectOutcome(state, action, input, repair).effects)
  {
    hide Wrote, AllWrote, SaveEffects, FaultyEffects, Due, Prepares, Granting, PerformedState;
    NothingWrote(s, input, action);
    if input.prepared && input.sourceBeforeIntent {
      IntentWrites(s, state, action, input, repair);
      var intent := IntentState(state, action, input, repair);
      var first, submit := SaveEffects(intent, Intent(action)), [Submit(action, input.operation)];
      SaveWrites(s, input, intent, Intent(action));
      if input.intentFault != NoFault || !input.validated {
        var refused := Saved(intent).(pending := state.pending);
        FaultyWrites(s, input, intent, action, input.intentFault);
        SaveWrites(s, input, refused, ValidationRefused(action));
        AllWroteConcat(s, input, FaultyEffects(intent, action, input.intentFault),
                       SaveEffects(refused, ValidationRefused(action)));
      } else {
        var performed := PerformedState(Saved(intent), state.pending, input);
        SaveWrites(s, input, performed, PerformedEvent(action, input));
        AllWroteConcat(s, input, first, submit);
        AllWroteConcat(s, input, first + submit, SaveEffects(performed, PerformedEvent(action, input)));
      }
    }
  }

  lemma NothingWrote(s: State, input: Input, action: Action)
    ensures AllWrote(s, input, []) && AllWrote(s, input, [Submit(action, input.operation)])
  {
  }

  lemma ReconcileWrites(s: State, input: Input)
    requires Granting(s, input) && s.pending.Some?
    ensures AllWrote(s, input, ReconcileOutcome(s, s.pending.value, input).effects)
  {
    hide EffectOutcome, EntryOf;
    NoNewGrants(s, input);
    if input.remote == RetrySafe && Repairable(s.pending.value.action)
       && s.pending.value.action in s.authorizations && input.bundleOk {
      EffectWrites(s, s, s.pending.value.action, input, true);
    }
  }

  lemma ProceedWrites(s: State, input: Input)
    requires Granting(s, input)
    ensures AllWrote(s, input, ProceedOutcome(s, input).effects)
  {
    hide EffectOutcome, ReconcileOutcome, EntryOf;
    NoNewGrants(s, input);
    if s.pending.Some? {
      ReconcileWrites(s, input);
    } else if Next(s.phase).Some? && Next(s.phase).value in s.authorizations {
      var action, admission := Next(s.phase).value, s.(admitted := Some(input.admitted));
      if action == Qualify && input.admitted {
        EffectWrites(s, admission, action, input, false);
      } else if action != Qualify && input.bundleOk {
        EffectWrites(s, s, action, input, false);
      }
    }
  }

  lemma BegunWrote(s: State, input: Input, t: State)
    requires Admissible(s, input) && Wrote(Begun(s, input), input, t)
    ensures Wrote(s, input, t)
  {
    BegunVetted(s, input);
    var b := Begun(s, input);
    if a :| Intended(b, input, a, t.pending) {
      assert Intended(s, input, a, t.pending);
    }
  }

  lemma CallWrites(w: World, sid: SessionId, input: Input)
    requires sid in w.states
    ensures AllWrote(w.states[sid], input, AdvanceOutcome(w, sid, input).effects)
  {
    hide ProceedOutcome, Wrote;
    var s := w.states[sid];
    if Unfinished(w, sid) && Claimable(w, sid) && Admissible(s, input) {
      BegunVetted(s, input);
      ProceedWrites(Begun(s, input), input);
      forall e | e in ProceedOutcome(Begun(s, input), input).effects && e.Replace? ensures Wrote(s, input, e.state) {
        BegunWrote(s, input, e.state);
      }
      GrantsWritten(s, input);
      AllWroteConcat(s, input, SaveEffects(Granted(s, input), AuthorizationUpdated),
                     ProceedOutcome(Begun(s, input), input).effects);
      AllWroteConcat(s, input, ClaimEffects(w), ClaimedOutcome(s, input).effects);
    }
  }

  lemma GrantsWritten(s: State, input: Input)
    requires s.phase !in {Complete, Superseded} && Admissible(s, input)
    ensures AllWrote(s, input, SaveEffects(Granted(s, input), AuthorizationUpdated))
  {
  }
}
