/**
 Every operation of the controller obeys the protocol, so its invariant holds of every run:
 any number of sessions, any remote answers, and a crash between any two primitive steps.
 */
module SessionRuns {
  import opened Results
  import opened Session
  import opened SessionProtocol

  // ----- the operations obey the protocol

  function AfterSave(w: World, sid: SessionId, state: State, event: Event): World {
    Apply(Apply(w, sid, Append(EntryOf(Saved(state), event))), sid, Replace(Saved(state)))
  }

  lemma SaveAllowed(w: World, sid: SessionId, state: State, event: Event)
    requires MayBecome(w, sid, Saved(state)) && FlagsBacked(w.log, sid, state)
    ensures AllowedAll(w, sid, SaveEffects(state, event))
    ensures ApplyAll(w, sid, SaveEffects(state, event)) == AfterSave(w, sid, state, event)
    ensures JournalledNow(AfterSave(w, sid, state, event), sid, Saved(state))
  {
    var es := SaveEffects(state, event);
    var w1 := Apply(w, sid, es[0]);
    assert es[1..] == [Replace(Saved(state))] && es[1..][1..] == [];
    assert JournalledNow(w1, sid, Saved(state)) && MayBecome(w1, sid, Saved(state));
    assert AllowedAll(w1, sid, es[1..]) by { assert AllowedAll(Apply(w1, sid, es[1]), sid, es[1..][1..]); }
    assert ApplyAll(w1, sid, es[1..]) == Apply(w1, sid, es[1]);
  }

  lemma OneAllowed(w: World, sid: SessionId, e: Effect)
    requires Allowed(w, sid, e)
    ensures AllowedAll(w, sid, [e]) && ApplyAll(w, sid, [e]) == Apply(w, sid, e)
  {
  }

  lemma NoneAllowed(w: World, sid: SessionId)
    ensures AllowedAll(w, sid, []) && ApplyAll(w, sid, []) == w
  {
  }

  /** The state in memory when an effect begins: the one on disk, up to notes not yet saved. */
  ghost predicate InMemory(w: World, sid: SessionId, state: State) {
    && sid in w.states
    && Continues(w.states[sid], state) && Notes(w.states[sid], state) && state.pending == w.states[sid].pending
  }

  ghost predicate MayAct(w: World, sid: SessionId, state: State, action: Action, repair: bool) {
    && InMemory(w, sid, state) && !Finished(state.phase) && w.lease == Some(sid) && action in state.authorizations
    && (if repair then state.pending.Some? && state.pending.value.action == action && Repairable(action)
        else state.pending.None? && Next(state.phase) == Some(action))
  }

  lemma EffectAllowed(w: World, sid: SessionId, state: State, action: Action, input: Input, repair: bool)
    requires Inv(w) && MayAct(w, sid, state, action, repair) && !OperationUsed(w.log, input.operation)
    ensures AllowedAll(w, sid, EffectOutcome(state, action, input, repair).effects)
  {
    if !input.prepared || !input.sourceBeforeIntent {
      NoneAllowed(w, sid);
    } else if input.intentFault != NoFault || !input.validated {
      RefusalAllowed(w, sid, state, action, input, repair);
    } else {
      SubmissionAllowed(w, sid, state, action, input, repair);
    }
  }

  lemma NotYetLogged(w: World, sid: SessionId, action: Action)
    requires Inv(w) && sid in w.states && w.states[sid].pending.None?
    requires !Finished(w.states[sid].phase) && Next(w.states[sid].phase) == Some(action)
    ensures !Logged(w.log, sid, action)
  {
  }

  lemma IntentBecomes(w: World, sid: SessionId, state: State, action: Action, input: Input, repair: bool)
    requires MayAct(w, sid, state, action, repair)
    ensures MayBecome(w, sid, Saved(IntentState(state, action, input, repair)))
  {
  }

  lemma RefusalAllowed(w: World, sid: SessionId, state: State, action: Action, input: Input, repair: bool)
    requires Inv(w) && MayAct(w, sid, state, action, repair)
    ensures var intent := IntentState(state, action, input, repair);
            AllowedAll(w, sid, FaultyEffects(intent, action, input.intentFault)
                             + SaveEffects(Saved(intent).(pending := state.pending), ValidationRefused(action)))
  {
    var intent := IntentState(state, action, input, repair);
    var refused := Saved(intent).(pending := state.pending);
    var es := FaultyEffects(intent, action, input.intentFault);
    if !repair { NotYetLogged(w, sid, action); }
    IntentBecomes(w, sid, state, action, input, repair);
    SaveAllowed(w, sid, intent, Intent(action));
    match input.intentFault {
      case BeforeAppend =>
        NoneAllowed(w, sid);
        SaveAllowed(w, sid, refused, ValidationRefused(action));
      case AfterAppend =>
        AllowedPrefix(w, sid, SaveEffects(intent, Intent(action)), 1);
        OneAllowed(w, sid, SaveEffects(intent, Intent(action))[0]);
        assert es == [SaveEffects(intent, Intent(action))[0]];
        SaveAllowed(ApplyAll(w, sid, es), sid, refused, ValidationRefused(action));
      case _ =>
        SaveAllowed(ApplyAll(w, sid, es), sid, refused, ValidationRefused(action));
    }
    AllowedConcat(w, sid, es, SaveEffects(refused, ValidationRefused(action)));
  }

  lemma SubmissionAllowed(w: World, sid: SessionId, state: State, action: Action, input: Input, repair: bool)
    requires Inv(w) && MayAct(w, sid, state, action, repair) && !OperationUsed(w.log, input.operation)
    ensures var intent := IntentState(state, action, input, repair);
            var performed := PerformedState(Saved(intent), state.pending, input);
            AllowedAll(w, sid, SaveEffects(intent, Intent(action)) + [Submit(action, input.operation)]
                             + SaveEffects(performed, PerformedEvent(action, input)))
  {
    hide AllowedAll, ApplyAll;
    var intent := IntentState(state, action, input, repair);
    var first := SaveEffects(intent, Intent(action));
    if !repair { NotYetLogged(w, sid, action); }
    IntentBecomes(w, sid, state, action, input, repair);
    SaveAllowed(w, sid, intent, Intent(action));
    var w1 := AfterSave(w, sid, intent, Intent(action));
    var submit := Submit(action, input.operation);
    assert MaySubmit(w1, sid, action, input.operation);
    OneAllowed(w1, sid, submit);
    AllowedConcat(w, sid, first, [submit]);
    ApplyAllConcat(w, sid, first, [submit]);
    var w2 := Apply(w1, sid, submit);
    var performed := PerformedState(Saved(intent), state.pending, input);
    SaveAllowed(w2, sid, performed, PerformedEvent(action, input));
    AllowedConcat(w, sid, first + [submit], SaveEffects(performed, PerformedEvent(action, input)));
  }

  lemma ReconcileAllowed(w: World, sid: SessionId, state: State, input: Input)
    requires Inv(w) && InMemory(w, sid, state) && !Finished(state.phase) && w.lease == Some(sid)
    requires state.pending.Some? && !OperationUsed(w.log, input.operation)
    ensures AllowedAll(w, sid, ReconcileOutcome(state, state.pending.value, input).effects)
  {
    var pending := state.pending.value;
    NoneAllowed(w, sid);
    match input.remote {
      case Failed(failure) =>
        var noted := state.(pending := Some(pending.(failure := Some(failure))));
        SaveAllowed(w, sid, noted, RemoteFailed(pending.action));
      case RetrySafe =>
        if Repairable(pending.action) && pending.action in state.authorizations && input.bundleOk {
          EffectAllowed(w, sid, state, pending.action, input, true);
        }
      case Observed(result) =>
        if Acceptable(state, pending.action, result) {
          SaveAllowed(w, sid, Accepted(state, pending.action, result), Reconciled(pending.action));
        }
      case _ =>
    }
  }

  lemma ProceedAllowed(w: World, sid: SessionId, state: State, input: Input)
    requires Inv(w) && InMemory(w, sid, state) && !Finished(state.phase) && w.lease == Some(sid)
    requires !OperationUsed(w.log, input.operation)
    ensures AllowedAll(w, sid, ProceedOutcome(state, input).effects)
  {
    NoneAllowed(w, sid);
    if state.pending.Some? {
      ReconcileAllowed(w, sid, state, input);
    } else if state.phase == GithubReleased {
      if input.publicVerified {
        SaveAllowed(w, sid, CompletedState(state), PublicVerified);
        var w1 := AfterSave(w, sid, CompletedState(state), PublicVerified);
        OneAllowed(w1, sid, ReleaseLease);
        AllowedConcat(w, sid, SaveEffects(CompletedState(state), PublicVerified), [ReleaseLease]);
      }
    } else if Next(state.phase).Some? && Next(state.phase).value in state.authorizations {
      var action := Next(state.phase).value;
      if action == Qualify {
        var admission := state.(admitted := Some(input.admitted));
        if !input.admitted {
          SaveAllowed(w, sid, admission, PreparationBlocked);
        } else {
          EffectAllowed(w, sid, admission, action, input, false);
        }
      } else if input.bundleOk {
        EffectAllowed(w, sid, state, action, input, false);
      }
    }
  }

  lemma ClaimAllowed(w: World, sid: SessionId)
    requires Claimable(w, sid)
    ensures AllowedAll(w, sid, ClaimEffects(w))
    ensures ApplyAll(w, sid, ClaimEffects(w)) == w.(lease := Some(sid))
  {
  }

  lemma ReleaseAllowed(w: World, sid: SessionId)
    requires sid in w.states && Finished(w.states[sid].phase)
    ensures AllowedAll(w, sid, ReleaseEffects(w, sid))
  {
  }

  lemma FlagsOnDisk(w: World, sid: SessionId)
    requires Inv(w) && sid in w.states
    ensures FlagsBacked(w.log, sid, w.states[sid])
  {
  }

  lemma ClaimedAllowed(w: World, sid: SessionId, input: Input)
    requires Inv(w) && sid in w.states && !Finished(w.states[sid].phase) && w.lease == Some(sid)
    requires !OperationUsed(w.log, input.operation)
    ensures AllowedAll(w, sid, ClaimedOutcome(w.states[sid], input).effects)
  {
    hide Inv, ProceedOutcome;
    var state := w.states[sid];
    NoneAllowed(w, sid);
    if input.sourceAtStart && !(input.preflight.Some? && !(state.phase == Prepared && state.pending.None?)) {
      if Updates(state, input) {
        var granted := Granted(state, input);
        FlagsOnDisk(w, sid);
        SaveAllowed(w, sid, granted, AuthorizationUpdated);
        var save := SaveEffects(granted, AuthorizationUpdated);
        StepsKeep(w, sid, save);
        ProceedAllowed(AfterSave(w, sid, granted, AuthorizationUpdated), sid, Saved(granted), input);
        AllowedConcat(w, sid, save, ProceedOutcome(Saved(granted), input).effects);
      } else {
        ProceedAllowed(w, sid, state, input);
      }
    }
  }

  lemma UnfinishedAllowed(w: World, sid: SessionId, input: Input)
    requires Inv(w) && sid in w.states && !Finished(w.states[sid].phase) && Claimable(w, sid)
    requires !OperationUsed(w.log, input.operation)
    ensures AllowedAll(w, sid, AdvanceOutcome(w, sid, input).effects)
  {
    hide Inv, ClaimedOutcome;
    ClaimAllowed(w, sid);
    StepsKeep(w, sid, ClaimEffects(w));
    ClaimedAllowed(w.(lease := Some(sid)), sid, input);
    AllowedConcat(w, sid, ClaimEffects(w), ClaimedOutcome(w.states[sid], input).effects);
  }

  lemma AdvanceAllowed(w: World, sid: SessionId, input: Input)
    requires Inv(w) && !OperationUsed(w.log, input.operation)
    ensures AllowedAll(w, sid, AdvanceOutcome(w, sid, input).effects)
  {
    NoneAllowed(w, sid);
    if sid in w.states {
      if Finished(w.states[sid].phase) {
        ReleaseAllowed(w, sid);
      } else if Claimable(w, sid) {
        UnfinishedAllowed(w, sid, input);
      }
    }
  }

  lemma InitializeAllowed(w: World, sid: SessionId, candidate: string, version: string, authorize: set<Action>,
                          preflight: Option<nat>, sourceOk: bool)
    requires Inv(w)
    ensures AllowedAll(w, sid, InitializeOutcome(w, sid, candidate, version, authorize, preflight, sourceOk).effects)
  {
    NoneAllowed(w, sid);
    if sid in w.states {
      if w.states[sid].candidate == candidate {
        if Finished(w.states[sid].phase) { ReleaseAllowed(w, sid); }
        else if Claimable(w, sid) { ClaimAllowed(w, sid); }
      }
    } else if Journal(w, sid) == [] && sourceOk {
      var state := NewState(candidate, version, authorize, preflight);
      SaveAllowed(w, sid, state, Initialized);
      if Claimable(w, sid) {
        var w1 := AfterSave(w, sid, state, Initialized);
        ClaimAllowed(w1, sid);
        AllowedConcat(w, sid, SaveEffects(state, Initialized), ClaimEffects(w));
      }
    }
  }

  lemma SupersedeAllowed(w: World, sid: SessionId, reasoned: bool, shaOk: string -> bool)
    requires Inv(w)
    ensures AllowedAll(w, sid, SupersedeOutcome(w, sid, reasoned, shaOk).effects)
  {
    NoneAllowed(w, sid);
    if reasoned && sid in w.states {
      var state := w.states[sid];
      if state.phase == Superseded {
        ReleaseAllowed(w, sid);
      } else if Supersedable(state, shaOk) {
        SaveAllowed(w, sid, SupersededState(state), ExplicitlySuperseded);
        var w1 := AfterSave(w, sid, SupersededState(state), ExplicitlySuperseded);
        ReleaseAllowed(w1, sid);
        AllowedConcat(w, sid, SaveEffects(SupersededState(state), ExplicitlySuperseded), ReleaseEffects(w, sid));
      }
    }
  }

  // ----- runs

  datatype Request =
    | Initialize(candidate: string, version: string, authorize: set<Action>, preflight: Option<nat>, sourceOk: bool)
    | Advance(input: Input)
    | Supersede(reasoned: bool, shaOk: string -> bool)

  /** One locked operation on one session, killed after `steps` primitive effects. */
  datatype Call = Call(sid: SessionId, request: Request, steps: nat)

  function Effects(w: World, call: Call): seq<Effect> {
    match call.request
    case Initialize(candidate, version, authorize, preflight, sourceOk) =>
      InitializeOutcome(w, call.sid, candidate, version, authorize, preflight, sourceOk).effects
    case Advance(input) => AdvanceOutcome(w, call.sid, input).effects
    case Supersede(reasoned, shaOk) => SupersedeOutcome(w, call.sid, reasoned, shaOk).effects
  }

  function Execute(w: World, call: Call): World {
    ApplyAll(w, call.sid, Cut(Effects(w, call), call.steps))
  }

  function Run(calls: seq<Call>): World {
    if calls == [] then START else Execute(Run(calls[..|calls| - 1]), calls[|calls| - 1])
  }

  /** Operation identifiers are UUIDs: no two calls draw the same one. */
  ghost predicate DistinctOperations(calls: seq<Call>) {
    forall i, j :: 0 <= i < j < |calls| && calls[i].request.Advance? && calls[j].request.Advance? ==>
      calls[i].request.input.operation != calls[j].request.input.operation
  }

  /** Submissions among these effects carry the identifier `operation`. */
  ghost predicate SubmitsAs(es: seq<Effect>, operation: OperationId) {
    forall e :: e in es && e.Submit? ==> e.operation == operation
  }

  lemma SubmitsConcat(es: seq<Effect>, fs: seq<Effect>, operation: OperationId)
    requires SubmitsAs(es, operation) && SubmitsAs(fs, operation)
    ensures SubmitsAs(es + fs, operation)
  {
  }

  lemma EffectSubmitsAs(state: State, action: Action, input: Input, repair: bool)
    ensures SubmitsAs(EffectOutcome(state, action, input, repair).effects, input.operation)
  {
  }

  lemma ProceedSubmitsAs(state: State, input: Input)
    ensures SubmitsAs(ProceedOutcome(state, input).effects, input.operation)
  {
    hide EffectOutcome;
    if state.pending.Some? {
      EffectSubmitsAs(state, state.pending.value.action, input, true);
    } else if Next(state.phase).Some? {
      EffectSubmitsAs(state, Next(state.phase).value, input, false);
      EffectSubmitsAs(state.(admitted := Some(input.admitted)), Next(state.phase).value, input, false);
    }
  }

  lemma AdvanceSubmitsAs(w: World, sid: SessionId, input: Input)
    ensures SubmitsAs(AdvanceOutcome(w, sid, input).effects, input.operation)
  {
    hide ProceedOutcome;
    if sid in w.states {
      var state := w.states[sid];
      ProceedSubmitsAs(state, input);
      ProceedSubmitsAs(Saved(Granted(state, input)), input);
      SubmitsConcat(SaveEffects(Granted(state, input), AuthorizationUpdated),
                    ProceedOutcome(Saved(Granted(state, input)), input).effects, input.operation);
      SubmitsConcat(ClaimEffects(w), ClaimedOutcome(state, input).effects, input.operation);
    }
  }

  /** Only `advance` submits, and under the identifier it drew. */
  lemma CallSubmitsAs(w: World, call: Call, e: Effect)
    requires e in Effects(w, call) && e.Submit?
    ensures call.request.Advance? && e.operation == call.request.input.operation
  {
    hide AdvanceOutcome;
    if call.request.Advance? { AdvanceSubmitsAs(w, call.sid, call.request.input); }
  }

  lemma {:induction false} LogGrows(w: World, sid: SessionId, es: seq<Effect>)
    ensures w.log <= ApplyAll(w, sid, es).log
    ensures forall x :: x in ApplyAll(w, sid, es).log ==>
              x in w.log || (x.session == sid && Submit(x.action, x.operation) in es)
    decreases |es|
  {
    if es != [] {
      LogGrows(Apply(w, sid, es[0]), sid, es[1..]);
    }
  }

  /** Every logged identifier was drawn by some call of the run. */
  lemma {:induction false} OperationsDrawn(calls: seq<Call>, x: Submission)
    requires x in Run(calls).log
    ensures exists k :: 0 <= k < |calls| && calls[k].request.Advance? && calls[k].request.input.operation == x.operation
  {
    if calls != [] {
      var n := |calls| - 1;
      var w, call := Run(calls[..n]), calls[n];
      LogGrows(w, call.sid, Cut(Effects(w, call), call.steps));
      if x in w.log {
        OperationsDrawn(calls[..n], x);
        var k :| 0 <= k < n && calls[..n][k].request.Advance? && calls[..n][k].request.input.operation == x.operation;
        assert calls[k] == calls[..n][k];
      } else {
        CallSubmitsAs(w, call, Submit(x.action, x.operation));
      }
    }
  }

  /** The invariant holds after every call of every run, wherever the calls were killed. */
  lemma {:induction false} RunInv(calls: seq<Call>)
    requires DistinctOperations(calls)
    ensures Inv(Run(calls))
  {
    hide Inv;
    if calls == [] {
      StartInv();
    } else {
      var n := |calls| - 1;
      var w, call := Run(calls[..n]), calls[n];
      RunInv(calls[..n]);
      CallAllowed(calls);
      var es := Effects(w, call);
      if call.steps < |es| { AllowedPrefix(w, call.sid, es, call.steps); }
      StepsKeep(w, call.sid, Cut(es, call.steps));
    }
  }

  lemma CallAllowed(calls: seq<Call>)
    requires calls != [] && DistinctOperations(calls)
    requires Inv(Run(calls[..|calls| - 1]))
    ensures AllowedAll(Run(calls[..|calls| - 1]), calls[|calls| - 1].sid,
                       Effects(Run(calls[..|calls| - 1]), calls[|calls| - 1]))
  {
    hide Inv;
    var n := |calls| - 1;
    var w, call := Run(calls[..n]), calls[n];
    match call.request {
      case Initialize(candidate, version, authorize, preflight, sourceOk) =>
        InitializeAllowed(w, call.sid, candidate, version, authorize, preflight, sourceOk);
      case Advance(input) =>
        if OperationUsed(w.log, input.operation) {
          var x :| x in w.log && x.operation == input.operation;
          OperationsDrawn(calls[..n], x);
        }
        AdvanceAllowed(w, call.sid, input);
      case Supersede(reasoned, shaOk) =>
        SupersedeAllowed(w, call.sid, reasoned, shaOk);
    }
  }
}
