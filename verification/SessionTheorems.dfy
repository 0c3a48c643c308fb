/** What the release protocol guarantees over whole runs. */
module SessionTheorems {
  import opened Results
  import opened Session
  import opened SessionProtocol
  import opened SessionRuns

  // ----- the order of one session's submissions

  function Actions(log: seq<Submission>, sid: SessionId): seq<Action> {
    if log == [] then []
    else Actions(log[..|log| - 1], sid) + if log[|log| - 1].session == sid then [log[|log| - 1].action] else []
  }

  function Repeat(a: Action, n: nat): seq<Action> { seq(n, _ => a) }

  /** How often each action stands in a word of blocks. */
  datatype Word = Word(qualify: nat, dryRun: nat, tag: nat, publish: nat, release: nat)

  function Count(word: Word, a: Action): nat {
    match a
    case Qualify => word.qualify
    case DryRun => word.dryRun
    case Tag => word.tag
    case Publish => word.publish
    case GithubRelease => word.release
  }

  /** qualify? dry-run? tag* publish? github-release* */
  ghost predicate ReleaseWord(s: seq<Action>, word: Word) {
    && word.qualify <= 1 && word.dryRun <= 1 && word.publish <= 1
    && s == Repeat(Qualify, word.qualify) + Repeat(DryRun, word.dryRun) + Repeat(Tag, word.tag)
            + Repeat(Publish, word.publish) + Repeat(GithubRelease, word.release)
  }

  ghost predicate OrderedActions(s: seq<Action>) {
    forall i, j :: 0 <= i < j < |s| ==> ActionRank(s[i]) < ActionRank(s[j]) || (s[i] == s[j] && Repairable(s[i]))
  }

  lemma {:induction false} ActionsOrdered(log: seq<Submission>, sid: SessionId)
    requires Ordered(log)
    ensures OrderedActions(Actions(log, sid))
    ensures forall a :: a in Actions(log, sid) <==> Logged(log, sid, a)
  {
    hide Logged;
    LoggedLast(log, sid);
    if log != [] {
      var init, last := log[..|log| - 1], log[|log| - 1];
      assert forall i :: 0 <= i < |init| ==> init[i] == log[i];
      ActionsOrdered(init, sid);
      if last.session == sid {
        forall a | a in Actions(init, sid)
          ensures ActionRank(a) < ActionRank(last.action) || (a == last.action && Repairable(a))
        {
          LastRanksHighest(log, sid, a);
        }
      }
    }
  }

  lemma LoggedLast(log: seq<Submission>, sid: SessionId)
    ensures log == [] ==> forall a :: !Logged(log, sid, a)
    ensures log != [] ==> forall a ::
              Logged(log, sid, a)
              <==> Logged(log[..|log| - 1], sid, a)
                   || (log[|log| - 1].session == sid && log[|log| - 1].action == a)
  {
    if log != [] {
      assert forall x :: x in log <==> x in log[..|log| - 1] || x == log[|log| - 1];
    }
  }

  lemma LastRanksHighest(log: seq<Submission>, sid: SessionId, a: Action)
    requires Ordered(log) && log != [] && log[|log| - 1].session == sid && Logged(log[..|log| - 1], sid, a)
    ensures ActionRank(a) < ActionRank(log[|log| - 1].action) || (a == log[|log| - 1].action && Repairable(a))
  {
    var x :| x in log[..|log| - 1] && x.session == sid && x.action == a;
    var i :| 0 <= i < |log| - 1 && log[i] == x;
  }

  lemma {:induction false} OrderedIsWord(s: seq<Action>) returns (word: Word)
    requires OrderedActions(s)
    ensures ReleaseWord(s, word)
  {
    hide ReleaseWord, Repeat;
    if s == [] {
      word := Word(0, 0, 0, 0, 0);
      EmptyWord();
    } else {
      var init, last := s[..|s| - 1], s[|s| - 1];
      word := OrderedIsWord(init);
      assert s == init + [last];
      NonemptyBlocks(init, word);
      forall a | a in init ensures ActionRank(a) < ActionRank(last) || (a == last && Repairable(a)) {
        var i :| 0 <= i < |init| && init[i] == a;
        assert s[i] == a;
      }
      word := ExtendWord(init, last, word);
    }
  }

  lemma Counts(word: Word)
    ensures word == Word(Count(word, Qualify), Count(word, DryRun), Count(word, Tag), Count(word, Publish),
                         Count(word, GithubRelease))
  {
  }

  lemma EmptyWord()
    ensures ReleaseWord([], Word(0, 0, 0, 0, 0))
  {
  }

  /** The blocks once `last`, of the highest rank so far, is appended. */
  lemma ExtendWord(s: seq<Action>, last: Action, word: Word) returns (longer: Word)
    requires ReleaseWord(s, word)
    requires forall a :: Count(word, a) > 0 ==> ActionRank(a) < ActionRank(last) || (a == last && Repairable(a))
    ensures ReleaseWord(s + [last], longer)
  {
    hide Repeat;
    NoRepeat();
    Counts(word);
    var qs, ds := Repeat(Qualify, word.qualify), Repeat(DryRun, word.dryRun);
    var ts, ps := Repeat(Tag, word.tag), Repeat(Publish, word.publish);
    match last {
      case Qualify =>
        longer := word.(qualify := 1);
        RepeatMore([], Qualify, 0);
        assert s == [] && [] + Repeat(Qualify, 1) == Repeat(Qualify, 1);
      case DryRun =>
        longer := word.(dryRun := 1);
        RepeatMore(qs, DryRun, 0);
        assert s == qs;
      case Tag =>
        longer := word.(tag := word.tag + 1);
        RepeatMore(qs + ds, Tag, word.tag);
        assert s == qs + ds + ts;
      case Publish =>
        longer := word.(publish := 1);
        RepeatMore(qs + ds + ts, Publish, 0);
        assert s == qs + ds + ts;
      case GithubRelease =>
        longer := word.(release := word.release + 1);
        RepeatMore(qs + ds + ts + ps, GithubRelease, word.release);
    }
  }

  lemma NoRepeat()
    ensures forall a :: Repeat(a, 0) == []
    ensures forall s: seq<Action> :: s + [] == s
  {
  }

  lemma RepeatMore(before: seq<Action>, a: Action, n: nat)
    ensures before + Repeat(a, n + 1) == before + Repeat(a, n) + [a]
  {
    assert Repeat(a, n + 1) == Repeat(a, n) + [a];
  }

  lemma NonemptyBlocks(s: seq<Action>, word: Word)
    requires ReleaseWord(s, word)
    ensures forall a :: a in s <==> Count(word, a) > 0
  {
    hide Repeat;
    forall a ensures a in s <==> Count(word, a) > 0 {
      InBlock(a, Qualify, word.qualify);
      InBlock(a, DryRun, word.dryRun);
      InBlock(a, Tag, word.tag);
      InBlock(a, Publish, word.publish);
      InBlock(a, GithubRelease, word.release);
    }
  }

  lemma InBlock(a: Action, b: Action, n: nat)
    ensures a in Repeat(b, n) <==> a == b && n > 0
  {
    if n > 0 {
      assert Repeat(b, n)[0] == b;
    }
  }

  /**
   In every run, with crashes anywhere and whatever the remote answers, a session submits a
   word of qualify? dry-run? tag* publish? github-release*.  So each of the three workflow
   dispatches is performed at most once.
   */
  lemma SubmissionsFormWord(calls: seq<Call>, sid: SessionId) returns (word: Word)
    requires DistinctOperations(calls)
    ensures ReleaseWord(Actions(Run(calls).log, sid), word)
  {
    RunInv(calls);
    ActionsOrdered(Run(calls).log, sid);
    word := OrderedIsWord(Actions(Run(calls).log, sid));
  }

  /**
   Write-ahead: each submission's intent is in the session's journal under its own identifier,
   its authorization is on disk, and no identifier is submitted twice.
   */
  lemma SubmissionsBacked(calls: seq<Call>, x: Submission)
    requires DistinctOperations(calls) && x in Run(calls).log
    ensures IntentJournalled(Run(calls), x)
    ensures x.session in Run(calls).states && x.action in Run(calls).states[x.session].authorizations
    ensures FreshOperations(Run(calls).log)
  {
    hide Run, IntentJournalled, FreshOperations;
    RunInv(calls);
    assert SessionInv(Run(calls), x.session);
  }

  lemma UnacceptedIsPending(w: World, x: Submission)
    requires x in w.log && x.session in w.states && SessionInv(w, x.session)
    requires PhaseRank(w.states[x.session].phase) <= ActionRank(x.action)
    ensures var s := w.states[x.session];
            s.pending.Some? && s.pending.value.action == x.action && Next(s.phase) == Some(x.action)
  {
    var s := w.states[x.session];
    if s.pending.Some? && Next(BasePhase(s)).Some? { NextRank(BasePhase(s), Next(BasePhase(s)).value); }
  }

  /**
   Nothing submitted is forgotten: until the submission of an unfinished session has been
   accepted, the state on disk names that action as pending, whatever crash came between.
   */
  lemma UnresolvedIsPending(calls: seq<Call>, x: Submission)
    requires DistinctOperations(calls) && x in Run(calls).log
    requires x.session in Run(calls).states
             && PhaseRank(Run(calls).states[x.session].phase) <= ActionRank(x.action)
    ensures var s := Run(calls).states[x.session];
            s.pending.Some? && s.pending.value.action == x.action && Next(s.phase) == Some(x.action)
  {
    hide Run, SessionInv;
    RunInv(calls);
    UnacceptedIsPending(Run(calls), x);
  }

  // ----- sessions sharing one checkout

  /**
   * Submissions of different sessions never interleave, and an unfinished session that has submitted
   * holds the lease.
   */
  lemma LeaseExcludes(calls: seq<Call>, sid: SessionId)
    requires DistinctOperations(calls)
    ensures Contiguous(Run(calls).log)
    ensures Unfinished(Run(calls), sid) && Actions(Run(calls).log, sid) != [] ==> Run(calls).lease == Some(sid)
  {
    RunInv(calls);
    ActionsOrdered(Run(calls).log, sid);
    if Unfinished(Run(calls), sid) && Actions(Run(calls).log, sid) != [] {
      assert SessionInv(Run(calls), sid);
      assert Actions(Run(calls).log, sid)[0] in Actions(Run(calls).log, sid);
    }
  }

  // ----- supersession

  /**
   Supersession abandons nothing irreversible.  A superseded session has submitted no upload and
   no release; it has submitted a tag only if it was superseded once that tag was accepted, and
   then the state retains exactly the accepted tag object of this version and candidate.
   */
  lemma SupersessionIsSafe(calls: seq<Call>, sid: SessionId)
    requires DistinctOperations(calls)
    requires sid in Run(calls).states && Run(calls).states[sid].phase == Superseded
    ensures var s, log := Run(calls).states[sid], Run(calls).log;
            && !Logged(log, sid, Publish) && !Logged(log, sid, GithubRelease)
            && (Logged(log, sid, Tag) ==> s.supersededFrom == Some(Tagged))
            && (s.supersededFrom == Some(Tagged) ==> s.pending.None? && RetainsTag(s))
  {
    hide Run, SessionInv, Logged;
    RunInv(calls);
    SupersededIsSafe(Run(calls), sid);
  }

  lemma SupersededIsSafe(w: World, sid: SessionId)
    requires sid in w.states && SessionInv(w, sid) && w.states[sid].phase == Superseded
    ensures var s := w.states[sid];
            && !Logged(w.log, sid, Publish) && !Logged(w.log, sid, GithubRelease)
            && (Logged(w.log, sid, Tag) ==> s.supersededFrom == Some(Tagged))
            && (s.supersededFrom == Some(Tagged) ==> s.pending.None? && RetainsTag(s))
  {
  }

  lemma FinishedStep(w: World, sid: SessionId, e: Effect, other: SessionId)
    requires Allowed(w, sid, e) && other in w.states && Finished(w.states[other].phase)
    ensures var w' := Apply(w, sid, e);
            && other in w'.states && w'.states[other].phase == w.states[other].phase
            && Actions(w'.log, other) == Actions(w.log, other)
  {
    if e.Submit? {
      var log := w.log + [Submission(sid, e.action, e.operation)];
      assert log[..|log| - 1] == w.log;
    }
  }

  lemma {:induction false} FinishedSteps(w: World, sid: SessionId, es: seq<Effect>, other: SessionId)
    requires AllowedAll(w, sid, es) && other in w.states && Finished(w.states[other].phase)
    ensures var w' := ApplyAll(w, sid, es);
            && other in w'.states && w'.states[other].phase == w.states[other].phase
            && Actions(w'.log, other) == Actions(w.log, other)
    decreases |es|
  {
    if es != [] {
      FinishedStep(w, sid, es[0], other);
      FinishedSteps(Apply(w, sid, es[0]), sid, es[1..], other);
    }
  }

  /** A finished session never changes phase and never submits again, however the run goes on. */
  lemma {:induction false} FinishedForever(calls: seq<Call>, n: nat, sid: SessionId)
    requires DistinctOperations(calls) && n <= |calls|
    requires sid in Run(calls[..n]).states && Finished(Run(calls[..n]).states[sid].phase)
    ensures sid in Run(calls).states && Run(calls).states[sid].phase == Run(calls[..n]).states[sid].phase
    ensures Actions(Run(calls).log, sid) == Actions(Run(calls[..n]).log, sid)
  {
    hide Inv, AllowedAll, Effects, Cut, Actions, Finished;
    if n == |calls| {
      assert calls[..n] == calls;
    } else {
      var last := |calls| - 1;
      assert calls[..last][..n] == calls[..n];
      FinishedForever(calls[..last], n, sid);
      RunInv(calls[..last]);
      LastCallAllowed(calls);
      var w, call := Run(calls[..last]), calls[last];
      FinishedSteps(w, call.sid, Cut(Effects(w, call), call.steps), sid);
    }
  }

  // ----- when the submissions have no gap

  /** Every action the session has had accepted was submitted by it. */
  ghost predicate AllSubmitted(w: World, sid: SessionId) {
    sid in w.states ==>
      forall a :: ActionRank(a) < PhaseRank(BasePhase(w.states[sid])) ==> Logged(w.log, sid, a)
  }

  function Rank(w: World, sid: SessionId): nat {
    if sid in w.states then PhaseRank(BasePhase(w.states[sid])) else 0
  }

  /** No action is missing below one that was submitted: a prefix of the full release. */
  ghost predicate Gapless(log: seq<Submission>, sid: SessionId) {
    forall x, a :: x in log && x.session == sid && ActionRank(a) < ActionRank(x.action) ==> Logged(log, sid, a)
  }

  /** A call by which the session has action a accepted. */
  ghost predicate AcceptedBetween(w: World, w': World, sid: SessionId, a: Action) {
    Rank(w, sid) == ActionRank(a) && Rank(w', sid) == ActionRank(a) + 1
  }

  predicate SameRank(es: seq<Effect>, rank: nat) {
    forall e | e in es :: e.Replace? ==> PhaseRank(BasePhase(e.state)) == rank
  }

  predicate NoSubmit(es: seq<Effect>) {
    forall e | e in es :: !e.Submit?
  }

  predicate RankStep(es: seq<Effect>, rank: nat) {
    forall e | e in es :: e.Replace? ==> rank <= PhaseRank(BasePhase(e.state)) <= rank + 1
  }

  lemma SaveSameRank(state: State, next: State, event: Event)
    requires BasePhase(next) == BasePhase(state)
    ensures SameRank(SaveEffects(next, event), PhaseRank(BasePhase(state)))
  {
    hide PhaseRank, EntryOf;
  }

  lemma FaultySameRank(state: State, action: Action, fault: SaveFault)
    ensures SameRank(FaultyEffects(state, action, fault), PhaseRank(BasePhase(state)))
  {
    hide SameRank, PhaseRank, EntryOf;
    SaveSameRank(state, state, Intent(action));
    SameRankPart(SaveEffects(state, Intent(action)), PhaseRank(BasePhase(state)));
  }

  lemma SameRankPart(es: seq<Effect>, rank: nat)
    requires SameRank(es, rank)
    ensures SameRank([], rank) && forall n :: 0 <= n <= |es| ==> SameRank(es[..n], rank)
  {
  }

  lemma EffectSameRank(state: State, action: Action, input: Input, repair: bool)
    ensures SameRank(EffectOutcome(state, action, input, repair).effects, PhaseRank(BasePhase(state)))
  {
    hide PhaseRank, SaveEffects, FaultyEffects;
    var intent := IntentState(state, action, input, repair);
    FaultySameRank(intent, action, input.intentFault);
    SaveSameRank(state, intent, Intent(action));
    SaveSameRank(state, Saved(intent).(pending := state.pending), ValidationRefused(action));
    SaveSameRank(state, PerformedState(Saved(intent), state.pending, input), PerformedEvent(action, input));
  }

  /** One call either keeps the rank of its session, or submits nothing and raises it by at most one. */
  ghost predicate Shaped(es: seq<Effect>, rank: nat) {
    SameRank(es, rank) || (NoSubmit(es) && RankStep(es, rank))
  }

  lemma ShapedAfter(es: seq<Effect>, fs: seq<Effect>, rank: nat)
    requires SameRank(es, rank) && NoSubmit(es) && Shaped(fs, rank)
    ensures Shaped(es + fs, rank)
  {
  }

  lemma ReconcileShaped(state: State, pending: Pending, input: Input)
    requires !Finished(state.phase) && Next(state.phase) == Some(pending.action)
    ensures Shaped(ReconcileOutcome(state, pending, input).effects, PhaseRank(state.phase))
  {
    hide EffectOutcome;
    NextRank(state.phase, pending.action);
    EffectSameRank(state, pending.action, input, true);
  }

  lemma ProceedShaped(state: State, input: Input)
    requires !Finished(state.phase) && (state.pending.Some? ==> Next(state.phase) == Some(state.pending.value.action))
    ensures Shaped(ProceedOutcome(state, input).effects, PhaseRank(state.phase))
  {
    hide EffectOutcome, ReconcileOutcome;
    if state.pending.Some? {
      ReconcileShaped(state, state.pending.value, input);
    } else if Next(state.phase).Some? {
      EffectSameRank(state, Next(state.phase).value, input, false);
      EffectSameRank(state.(admitted := Some(input.admitted)), Next(state.phase).value, input, false);
    }
  }

  lemma AdvanceShaped(w: World, sid: SessionId, input: Input)
    requires Inv(w)
    ensures Shaped(AdvanceOutcome(w, sid, input).effects, Rank(w, sid))
  {
    hide ProceedOutcome, Inv;
    if Unfinished(w, sid) {
      var state := w.states[sid];
      PendingIsNext(w, sid);
      ProceedShaped(state, input);
      ProceedShaped(Saved(Granted(state, input)), input);
      ShapedAfter(SaveEffects(Granted(state, input), AuthorizationUpdated),
                  ProceedOutcome(Saved(Granted(state, input)), input).effects, Rank(w, sid));
      ShapedAfter(ClaimEffects(w), ClaimedOutcome(state, input).effects, Rank(w, sid));
    }
  }

  lemma PendingIsNext(w: World, sid: SessionId)
    requires Inv(w) && Unfinished(w, sid)
    ensures var s := w.states[sid];
            && BasePhase(s) == s.phase && (s.pending.Some? ==> Next(s.phase) == Some(s.pending.value.action))
  {
  }

  lemma CallShaped(w: World, call: Call)
    requires Inv(w)
    ensures Shaped(Effects(w, call), Rank(w, call.sid))
  {
    hide Inv, AdvanceOutcome;
    match call.request {
      case Advance(input) => AdvanceShaped(w, call.sid, input);
      case _ =>
    }
  }

  /** The session's state afterwards is one its call wrote, or the one it had. */
  lemma {:induction false} FinalState(w: World, sid: SessionId, es: seq<Effect>)
    ensures var w' := ApplyAll(w, sid, es);
            && (sid in w.states ==> sid in w'.states)
            && (sid in w'.states && Replace(w'.states[sid]) !in es ==>
                 sid in w.states && w'.states[sid] == w.states[sid])
    decreases |es|
  {
    if es != [] {
      FinalState(Apply(w, sid, es[0]), sid, es[1..]);
    }
  }

  lemma {:induction false} OtherStates(w: World, sid: SessionId, es: seq<Effect>, other: SessionId)
    requires other != sid
    ensures Rank(ApplyAll(w, sid, es), other) == Rank(w, other)
    ensures other in ApplyAll(w, sid, es).states <==> other in w.states
    decreases |es|
  {
    if es != [] {
      OtherStates(Apply(w, sid, es[0]), sid, es[1..], other);
    }
  }

  lemma {:induction false} NoSubmitSameLog(w: World, sid: SessionId, es: seq<Effect>)
    requires NoSubmit(es)
    ensures ApplyAll(w, sid, es).log == w.log
    decreases |es|
  {
    if es != [] {
      assert es[0] in es && forall e :: e in es[1..] ==> e in es;
      NoSubmitSameLog(Apply(w, sid, es[0]), sid, es[1..]);
    }
  }

  /** A session submits only at its own rank, so a gap left behind is never filled. */
  lemma SubmitAtRank(w: World, sid: SessionId, action: Action, operation: OperationId)
    requires Inv(w) && MaySubmit(w, sid, action, operation)
    ensures ActionRank(action) == Rank(w, sid)
  {
  }

  lemma {:induction false} GapStays(w: World, sid: SessionId, es: seq<Effect>, a: Action)
    requires Inv(w) && AllowedAll(w, sid, es) && SameRank(es, Rank(w, sid))
    requires ActionRank(a) < Rank(w, sid) && !Logged(w.log, sid, a)
    ensures !Logged(ApplyAll(w, sid, es).log, sid, a)
    decreases |es|
  {
    hide Inv;
    if es != [] {
      var e := es[0];
      assert e in es && forall x :: x in es[1..] ==> x in es;
      StepKeeps(w, sid, e);
      if e.Submit? { SubmitAtRank(w, sid, e.action, e.operation); }
      GapStays(Apply(w, sid, e), sid, es[1..], a);
    }
  }

  /** What one call does to a session's record of submissions. */
  lemma CallSubmissions(w: World, call: Call, sid: SessionId)
    requires Inv(w) && AllowedAll(w, call.sid, Cut(Effects(w, call), call.steps))
    ensures var w' := Execute(w, call);
            AllSubmitted(w', sid) <==>
              AllSubmitted(w, sid) && forall a :: AcceptedBetween(w, w', sid, a) ==> Logged(w.log, sid, a)
  {
    hide Inv, Effects;
    var all := Effects(w, call);
    var es := Cut(all, call.steps);
    var w' := Execute(w, call);
    CallShaped(w, call);
    assert forall e :: e in es ==> e in all;
    if sid == call.sid {
      OwnCallSubmissions(w, sid, es);
    } else {
      OtherStates(w, call.sid, es, sid);
      LogGrows(w, call.sid, es);
      assert forall a :: Logged(w'.log, sid, a) == Logged(w.log, sid, a) by {
        forall a ensures Logged(w'.log, sid, a) == Logged(w.log, sid, a) {
          if Logged(w.log, sid, a) {
            var x :| x in w.log && x.session == sid && x.action == a;
            assert x in w'.log;
          }
        }
      }
    }
  }

  lemma OwnCallSubmissions(w: World, sid: SessionId, es: seq<Effect>)
    requires Inv(w) && AllowedAll(w, sid, es) && Shaped(es, Rank(w, sid))
    ensures var w' := ApplyAll(w, sid, es);
            AllSubmitted(w', sid) <==>
              AllSubmitted(w, sid) && forall a :: AcceptedBetween(w, w', sid, a) ==> Logged(w.log, sid, a)
  {
    hide Inv;
    var w' := ApplyAll(w, sid, es);
    FinalState(w, sid, es);
    LogGrows(w, sid, es);
    assert forall a :: Logged(w.log, sid, a) ==> Logged(w'.log, sid, a) by {
      forall a | Logged(w.log, sid, a) ensures Logged(w'.log, sid, a) {
        var x :| x in w.log && x.session == sid && x.action == a;
        assert x in w'.log;
      }
    }
    if SameRank(es, Rank(w, sid)) {
      assert Rank(w', sid) == Rank(w, sid);
      if !AllSubmitted(w, sid) {
        var a :| ActionRank(a) < Rank(w, sid) && !Logged(w.log, sid, a);
        GapStays(w, sid, es, a);
      }
    } else {
      NoSubmitSameLog(w, sid, es);
      assert Rank(w, sid) <= Rank(w', sid) <= Rank(w, sid) + 1;
    }
  }

  /** Call k has action a of session sid accepted. */
  ghost predicate AcceptedAt(calls: seq<Call>, k: nat, sid: SessionId, a: Action)
    requires k < |calls|
  {
    AcceptedBetween(Run(calls[..k]), Run(calls[..k + 1]), sid, a)
  }

  /** Everything accepted was submitted if and only if it was when each acceptance was made. */
  lemma {:induction false} AcceptancesLogged(calls: seq<Call>, sid: SessionId)
    requires DistinctOperations(calls)
    ensures AllSubmitted(Run(calls), sid) <==>
              forall k, a :: 0 <= k < |calls| && AcceptedAt(calls, k, sid, a) ==> Logged(Run(calls[..k]).log, sid, a)
  {
    hide Inv, AllSubmitted, Execute, AcceptedBetween, Logged;
    if calls == [] {
      StartSubmitted(sid);
    } else {
      var n := |calls| - 1;
      var init := calls[..n];
      assert calls[..n + 1] == calls;
      assert forall k :: 0 <= k <= n ==> init[..k] == calls[..k];
      assert forall k, a :: 0 <= k < n ==> AcceptedAt(init, k, sid, a) == AcceptedAt(calls, k, sid, a);
      AcceptancesLogged(init, sid);
      RunInv(init);
      LastCallAllowed(calls);
      CallSubmissions(Run(init), calls[n], sid);
    }
  }

  lemma StartSubmitted(sid: SessionId)
    ensures AllSubmitted(START, sid)
  {
  }

  lemma LastCallAllowed(calls: seq<Call>)
    requires calls != [] && DistinctOperations(calls) && Inv(Run(calls[..|calls| - 1]))
    ensures var w, call := Run(calls[..|calls| - 1]), calls[|calls| - 1];
            AllowedAll(w, call.sid, Cut(Effects(w, call), call.steps)) && Run(calls) == Execute(w, call)
  {
    hide Inv, Effects;
    CallAllowed(calls);
    var w, call := Run(calls[..|calls| - 1]), calls[|calls| - 1];
    if call.steps < |Effects(w, call)| { AllowedPrefix(w, call.sid, Effects(w, call), call.steps); }
  }
}
