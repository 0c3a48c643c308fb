/**
 What the calls of a session report and journal, and what `initialize` and `supersede` leave.
 */
module SessionReports {
  import opened Results
  import opened Session
  import opened SessionProtocol
  import opened SessionRuns
  import opened SessionTheorems
  import opened SessionPrefix
  import opened SessionWindow
  import opened SessionLaws
  import opened SessionVetting

  // ----- what a call reports

  /** The report of a call that holds the lease on the right checkout, by what it found and did. */
  function ReportedOn(s: State, input: Input): Observation {
    if Submitting(s, input).Some? || Confirmed(s, input) || Finishing(s, input) then Done
    else if s.pending.Some? then
      match input.remote
      case Absent => AwaitingRemote
      case Running => RemoteRunning
      case Failed(_) => RemoteFailedSeen
      case _ => Raised
    else if s.phase == GithubReleased then Raised
    else if Next(s.phase).Some? && Next(s.phase).value !in s.authorizations + input.authorize then
      if s.phase == Prepared then AwaitingAuthorization else ScopeComplete
    else if s.phase == Prepared && !input.admitted then Blocked
    else Raised
  }

  function Reported(w: World, sid: SessionId, input: Input): Observation {
    if sid !in w.states then Raised
    else if w.states[sid].phase in {Complete, Superseded} then Done
    else if !Claimable(w, sid) || !Admissible(w.states[sid], input) then Raised
    else ReportedOn(w.states[sid], input)
  }

  lemma EffectReports(state: State, action: Action, input: Input, repair: bool)
    ensures EffectOutcome(state, action, input, repair).observation
         == if input.prepared && input.sourceBeforeIntent && input.intentFault == NoFault && input.validated then Done
            else Raised
  {
  }

  lemma ProceedReports(s: State, input: Input)
    requires Granting(s, input)
    ensures ProceedOutcome(s, input).observation == ReportedOn(s, input)
  {
    hide EffectOutcome, SaveEffects;
    NoNewGrants(s, input);
    if s.pending.Some? {
      EffectReports(s, s.pending.value.action, input, true);
    } else if Next(s.phase).Some? {
      EffectReports(s, Next(s.phase).value, input, false);
      EffectReports(s.(admitted := Some(input.admitted)), Next(s.phase).value, input, false);
    }
  }

  lemma BegunReports(s: State, input: Input)
    ensures ReportedOn(Begun(s, input), input) == ReportedOn(s, input)
  {
    hide Vetted, Submitting;
    BegunVetted(s, input);
  }

  lemma ReportLaw(w: World, sid: SessionId, input: Input)
    ensures AdvanceOutcome(w, sid, input).observation == Reported(w, sid, input)
  {
    hide ProceedOutcome, ReportedOn, SaveEffects, Submitting;
    if Unfinished(w, sid) && Claimable(w, sid) && Admissible(w.states[sid], input) {
      BegunVetted(w.states[sid], input);
      ProceedReports(Begun(w.states[sid], input), input);
      BegunReports(w.states[sid], input);
    }
  }

  // ----- what a call journals

  /** The event of an entry agrees with its phase and pending action, and with what was answered. */
  ghost predicate Tells(s: State, input: Input, entry: Entry) {
    match entry.event
    case AuthorizationUpdated =>
      && entry.phase == s.phase && entry.pending == s.pending
      && (input.preflight.Some? || !(input.authorize <= s.authorizations))
    case RemoteFailed(a) =>
      && FailureSeen(s, input) && entry.phase == s.phase && s.pending.value.action == a
      && s.pending.value.failure != Some(input.remote.failure)
      && entry.pending == Some(s.pending.value.(failure := Some(input.remote.failure)))
    case Reconciled(a) =>
      Confirmed(s, input) && s.pending.value.action == a && entry.phase == PhaseAfter(a) && entry.pending.None?
    case PublicVerified => Finishing(s, input) && entry.phase == Complete && entry.pending.None?
    case PreparationBlocked =>
      !input.admitted && s.phase == Prepared && entry.phase == Prepared && entry.pending == s.pending == None
    case Intent(a) =>
      && Due(s, input, a) && entry.phase == s.phase
      && entry.pending == Some(Pending(a, input.operation, s.pending.Some?, false, false, None, None))
    case ValidationRefused(a) =>
      && Due(s, input, a) && entry.phase == s.phase && entry.pending == s.pending
      && (!input.validated || input.intentFault != NoFault)
    case UnknownOutcome(a) =>
      && Vetted(s, input, a) && input.performRaised && entry.phase == s.phase
      && entry.pending == Some(Dispatched(s, input, a))
    case SubmittedEvent(a) =>
      && Vetted(s, input, a) && !input.performRaised && entry.phase == s.phase
      && entry.pending == Some(Dispatched(s, input, a))
    case _ => false
  }

  ghost predicate AllTell(s: State, input: Input, es: seq<Effect>) {
    forall e :: e in es && e.Append? ==> Tells(s, input, e.entry)
  }

  lemma AllTellConcat(s: State, input: Input, es: seq<Effect>, fs: seq<Effect>)
    requires AllTell(s, input, es) && AllTell(s, input, fs)
    ensures AllTell(s, input, es + fs)
  {
    hide Tells;
  }

  lemma SaveTells(s: State, input: Input, state: State, event: Event)
    requires Tells(s, input, EntryOf(Saved(state), event))
    ensures AllTell(s, input, SaveEffects(state, event))
  {
  }

  lemma FaultyTells(s: State, input: Input, state: State, action: Action, fault: SaveFault)
    requires AllTell(s, input, SaveEffects(state, Intent(action)))
    ensures AllTell(s, input, FaultyEffects(state, action, fault))
  {
    hide Tells, EntryOf;
  }

  lemma EffectTells(s: State, state: State, action: Action, input: Input, repair: bool)
    requires Granting(s, input) && Prepares(s, input, state) && repair == s.pending.Some?
    requires Due(s, input, action) && action in s.authorizations
    requires if action == Qualify then input.admitted else input.bundleOk
    ensures AllTell(s, input, EffectOutcome(state, action, input, repair).effects)
  {
    hide SaveEffects, FaultyEffects, AllTell;
    NoNewGrants(s, input);
    NoneTells(s, input, input.operation, action);
    if input.prepared && input.sourceBeforeIntent {
      var intent := IntentState(state, action, input, repair);
      var first := SaveEffects(intent, Intent(action));
      SaveTells(s, input, intent, Intent(action));
      if input.intentFault != NoFault || !input.validated {
        var refused := Saved(intent).(pending := state.pending);
        FaultyTells(s, input, intent, action, input.intentFault);
        SaveTells(s, input, refused, ValidationRefused(action));
        AllTellConcat(s, input, FaultyEffects(intent, action, input.intentFault),
                      SaveEffects(refused, ValidationRefused(action)));
      } else {
        var performed := PerformedState(Saved(intent), state.pending, input);
        SaveTells(s, input, performed, PerformedEvent(action, input));
        AllTellConcat(s, input, first, [Submit(action, input.operation)]);
        AllTellConcat(s, input, first + [Submit(action, input.operation)],
                      SaveEffects(performed, PerformedEvent(action, input)));
      }
    }
  }

  lemma NoneTells(s: State, input: Input, operation: OperationId, action: Action)
    ensures AllTell(s, input, []) && AllTell(s, input, [Submit(action, operation)])
  {
  }

  lemma ReconcileTells(s: State, input: Input)
    requires Granting(s, input) && s.pending.Some?
    ensures AllTell(s, input, ReconcileOutcome(s, s.pending.value, input).effects)
  {
    hide EffectOutcome;
    NoNewGrants(s, input);
    if input.remote == RetrySafe && Repairable(s.pending.value.action)
       && s.pending.value.action in s.authorizations && input.bundleOk {
      EffectTells(s, s, s.pending.value.action, input, true);
    }
  }

  lemma ProceedTells(s: State, input: Input)
    requires Granting(s, input)
    ensures AllTell(s, input, ProceedOutcome(s, input).effects)
  {
    hide EffectOutcome, ReconcileOutcome;
    NoNewGrants(s, input);
    if s.pending.Some? {
      ReconcileTells(s, input);
    } else if Next(s.phase).Some? && Next(s.phase).value in s.authorizations {
      var action, admission := Next(s.phase).value, s.(admitted := Some(input.admitted));
      if action == Qualify && input.admitted {
        EffectTells(s, admission, action, input, false);
      } else if action != Qualify && input.bundleOk {
        EffectTells(s, s, action, input, false);
      }
    }
  }

  lemma BegunTells(s: State, input: Input, entry: Entry)
    requires Admissible(s, input) && Tells(Begun(s, input), input, entry)
    ensures Tells(s, input, entry)
  {
    hide Vetted, Submitting;
    BegunVetted(s, input);
  }

  /** Whatever an `advance` journals, killed or not, tells what it found and was answered. */
  lemma JournalLaw(w: World, sid: SessionId, input: Input)
    requires sid in w.states
    ensures AllTell(w.states[sid], input, AdvanceOutcome(w, sid, input).effects)
  {
    hide ProceedOutcome, Tells;
    var s := w.states[sid];
    if Unfinished(w, sid) && Claimable(w, sid) && Admissible(s, input) {
      BegunVetted(s, input);
      ProceedTells(Begun(s, input), input);
      forall e | e in ProceedOutcome(Begun(s, input), input).effects && e.Append? ensures Tells(s, input, e.entry) {
        BegunTells(s, input, e.entry);
      }
      if Updates(s, input) {
        GrantsTell(s, input);
        AllTellConcat(s, input, SaveEffects(Granted(s, input), AuthorizationUpdated),
                      ProceedOutcome(Begun(s, input), input).effects);
      }
      AllTellConcat(s, input, ClaimEffects(w), ClaimedOutcome(s, input).effects);
    }
  }

  lemma GrantsTell(s: State, input: Input)
    requires Updates(s, input)
    ensures AllTell(s, input, SaveEffects(Granted(s, input), AuthorizationUpdated))
  {
  }

  // ----- initialize and supersede

  function InitializeReport(w: World, call: Call): Observation
    requires call.request.Initialize?
  {
    var r := call.request;
    InitializeOutcome(w, call.sid, r.candidate, r.version, r.authorize, r.preflight, r.sourceOk).observation
  }

  /**
   The law of `initialize`, for a call that is not killed: a session is made exactly in a fresh
   directory on the checkout of its candidate, an existing one is never changed, and the lease is
   taken when it is free, kept, or given back by a finished session.
   */
  lemma InitializeLaw(w: World, call: Call)
    requires call.request.Initialize? && call.steps >= LONGEST
    ensures var w', sid := Execute(w, call), call.sid;
            && w'.log == w.log && (forall other :: other != sid ==> (other in w'.states <==> other in w.states))
            && (sid in w'.states <==> sid in w.states || (Journal(w, sid) == [] && call.request.sourceOk))
            && (sid in w'.states ==> if sid in w.states then w'.states[sid] == w.states[sid]
                                     else Begins(call, w'.states[sid]))
            && w'.lease == (if sid !in w'.states || w'.states[sid].candidate != call.request.candidate then w.lease
                            else if Finished(w'.states[sid].phase) then (if w.lease == Some(sid) then None else w.lease)
                            else if w.lease.None? then Some(sid) else w.lease)
            && (InitializeReport(w, call) == Done
                <==> sid in w'.states && w'.states[sid].candidate == call.request.candidate
                     && (Finished(w'.states[sid].phase) || w'.lease == Some(sid)))
            && InitializeReport(w, call) in {Done, Raised}
  {
    hide EntryOf, Begins;
    var sid := call.sid;
    var es := Effects(w, call);
    Unrolled(w, sid, es);
    if sid !in w.states && es != [] {
      BeginsThere(call);
    }
  }

  lemma BeginsThere(call: Call)
    requires call.request.Initialize? && call.request.sourceOk
    ensures Begins(call, Saved(NewState(call.request.candidate, call.request.version, call.request.authorize,
                                        call.request.preflight)))
  {
  }

  lemma Unrolled(w: World, sid: SessionId, es: seq<Effect>)
    requires |es| <= 3
    ensures ApplyAll(w, sid, es)
         == if es == [] then w
            else if |es| == 1 then Apply(w, sid, es[0])
            else if |es| == 2 then Apply(Apply(w, sid, es[0]), sid, es[1])
            else Apply(Apply(Apply(w, sid, es[0]), sid, es[1]), sid, es[2])
  {
    hide Apply;
    if |es| > 0 {
      var first := Apply(w, sid, es[0]);
      assert ApplyAll(w, sid, es) == ApplyAll(first, sid, es[1..]);
      if |es| > 1 {
        var second := Apply(first, sid, es[1]);
        assert es[1..][0] == es[1] && es[1..][1..] == es[2..];
        assert ApplyAll(w, sid, es) == ApplyAll(second, sid, es[2..]);
        if |es| > 2 {
          assert es[2..][0] == es[2] && es[2..][1..] == [];
        }
      }
    }
  }

  /** What `supersede` demands of a session that a run has made; the rest is so of every such session. */
  ghost predicate Abandonable(s: State, shaOk: string -> bool) {
    || (s.phase in {Prepared, Qualified, DryRunVerified}
        && (s.pending.Some? ==> s.pending.value.action in {Qualify, DryRun}))
    || (s.phase == Tagged && s.pending.None? && Tag in s.records
        && var refs, name := s.records[Tag].refs, "refs/tags/v" + s.version;
           refs.Keys == {name, name + "^{}"} && shaOk(refs[name]) && refs[name + "^{}"] == s.candidate)
  }

  lemma AbandonableIff(s: State, shaOk: string -> bool)
    requires RecordsSound(s) && s.phase != Superseded
    ensures Supersedable(s, shaOk) <==> Abandonable(s, shaOk)
  {
    assert s.phase == Tagged ==> Publish !in s.records && Tag in s.records;
  }

  /**
   The law of `supersede`, on a session of any run and for a call that is not killed: with a reason
   it supersedes exactly what can be abandoned, and then, as for a session superseded before, the
   lease is given back; otherwise nothing changes.  It never submits.
   */
  lemma SupersedeLaw(calls: seq<Call>, sid: SessionId, reasoned: bool, shaOk: string -> bool, steps: nat)
    requires DistinctOperations(calls) && sid in Run(calls).states && steps >= LONGEST
    ensures var w := Run(calls);
            var w', s := Execute(w, Call(sid, Supersede(reasoned, shaOk), steps)), w.states[sid];
            && sid in w'.states && w'.log == w.log
            && (if s.phase != Superseded && reasoned && Abandonable(s, shaOk) then
                  Superseding(s, shaOk, w'.states[sid])
                else w'.states[sid] == s)
            && w'.lease == (if reasoned && w'.states[sid].phase == Superseded && w.lease == Some(sid) then None
                            else w.lease)
            && (SupersedeOutcome(w, sid, reasoned, shaOk).observation == Done
                <==> reasoned && w'.states[sid].phase == Superseded)
            && SupersedeOutcome(w, sid, reasoned, shaOk).observation in {Done, Raised}
  {
    hide Run, Supersedable, Superseding, Abandonable, RecordsSound, SupersededState, EntryOf;
    assert calls[..|calls|] == calls;
    AlwaysSound(calls, |calls|, sid);
    var w := Run(calls);
    var s, es := w.states[sid], SupersedeOutcome(w, sid, reasoned, shaOk).effects;
    Unrolled(w, sid, es);
    if s.phase != Superseded {
      AbandonableIff(s, shaOk);
      if reasoned && Supersedable(s, shaOk) {
        assert es[1] == Replace(Saved(SupersededState(s)));
        SupersedeWrites(w, sid, reasoned, shaOk, Saved(SupersededState(s)));
        SupersededPhase(s);
      }
    }
  }

  lemma SupersededPhase(s: State)
    ensures Saved(SupersededState(s)).phase == Superseded
  {
  }
}
