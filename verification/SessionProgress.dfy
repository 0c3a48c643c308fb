/**
 What the controller achieves when nothing stands in its way, and what it does when the remote
 shows a run that the session never dispatched.
 */
module SessionProgress {
  import opened Results
  import opened Session
  import opened SessionProtocol
  import opened SessionRuns
  import opened SessionTheorems

  /** No check refuses; the remote write itself may still raise after it was performed. */
  predicate Smooth(input: Input) {
    && input.authorize == {} && input.preflight.None? && input.sourceAtStart && input.publicVerified && input.admitted
    && input.bundleOk && input.prepared && input.sourceBeforeIntent && input.intentFault == NoFault && input.validated
  }

  predicate Ready(w: World, sid: SessionId, action: Action) {
    && sid in w.states && Claimable(w, sid)
    && Next(w.states[sid].phase) == Some(action) && w.states[sid].pending.None?
    && action in w.states[sid].authorizations
  }

  predicate Waiting(w: World, sid: SessionId, action: Action) {
    && sid in w.states && Claimable(w, sid)
    && Next(w.states[sid].phase) == Some(action)
    && w.states[sid].pending.Some? && w.states[sid].pending.value.action == action
  }

  /** Same candidate, version and grants; nothing else of the world is compared. */
  predicate SameSession(s: State, t: State) {
    t.candidate == s.candidate && t.version == s.version && t.authorizations == s.authorizations
  }

  lemma SmoothEffects(w: World, sid: SessionId, action: Action, input: Input)
    requires Ready(w, sid, action) && Smooth(input)
    ensures var s := if action == Qualify then w.states[sid].(admitted := Some(true)) else w.states[sid];
            AdvanceOutcome(w, sid, input).effects == ClaimEffects(w) + EffectOutcome(s, action, input, false).effects
  {
  }

  lemma EffectList(s: State, action: Action, input: Input)
    requires Smooth(input)
    ensures var intent := Saved(IntentState(s, action, input, false));
            var performed := Saved(PerformedState(intent, s.pending, input));
            EffectOutcome(s, action, input, false).effects ==
              [Append(EntryOf(intent, Intent(action))), Replace(intent), Submit(action, input.operation),
               Append(EntryOf(performed, PerformedEvent(action, input))), Replace(performed)]
  {
  }

  lemma CutAfter(es: seq<Effect>, fs: seq<Effect>, steps: nat)
    requires steps >= |es|
    ensures Cut(es + fs, steps) == es + Cut(fs, steps - |es|)
  {
  }

  /**
   A smooth `advance` that lives past its remote write has submitted its action exactly once and
   left it pending, wherever it was killed afterwards and whether or not the write raised.
   */
  lemma Dispatch(w: World, sid: SessionId, action: Action, input: Input, steps: nat)
    requires Ready(w, sid, action) && Smooth(input) && steps >= |ClaimEffects(w)| + 3
    ensures var w' := Execute(w, Call(sid, Advance(input), steps));
            && w'.log == w.log + [Submission(sid, action, input.operation)] && w'.lease == Some(sid)
            && Waiting(w', sid, action)
            && w'.states[sid].phase == w.states[sid].phase && SameSession(w.states[sid], w'.states[sid])
  {
    var s := if action == Qualify then w.states[sid].(admitted := Some(true)) else w.states[sid];
    SmoothEffects(w, sid, action, input);
    EffectList(s, action, input);
    var claim, es := ClaimEffects(w), EffectOutcome(s, action, input, false).effects;
    var n := if steps < |claim| + 5 then steps - |claim| else 5;
    CutAfter(claim, es, steps);
    assert Cut(es, steps - |claim|) == es[..n];
    ApplyAllConcat(w, sid, claim, es[..n]);
    ClaimAllowed(w, sid);
    ThreeToFive(w.(lease := Some(sid)), sid, es, n);
  }

  lemma ThreeToFive(w: World, sid: SessionId, es: seq<Effect>, n: nat)
    requires |es| == 5 && 3 <= n <= 5
    requires es[0].Append? && es[1].Replace? && es[2].Submit? && es[3].Append? && es[4].Replace?
    ensures var w' := ApplyAll(w, sid, es[..n]);
            && w'.log == w.log + [Submission(sid, es[2].action, es[2].operation)] && w'.lease == w.lease
            && sid in w'.states && w'.states[sid] == if n == 5 then es[4].state else es[1].state
  {
    hide ApplyAll;
    var first, rest := es[..3], es[3..n];
    assert es[..n] == first + rest;
    ApplyAllConcat(w, sid, first, rest);
    assert first == [es[0]] + ([es[1]] + [es[2]]);
    ApplyAllConcat(w, sid, [es[0]], [es[1]] + [es[2]]);
    ApplyAllConcat(Apply(w, sid, es[0]), sid, [es[1]], [es[2]]);
    One(w, sid, es[0]);
    One(Apply(w, sid, es[0]), sid, es[1]);
    One(Apply(Apply(w, sid, es[0]), sid, es[1]), sid, es[2]);
    var w1 := ApplyAll(w, sid, first);
    if n == 3 {
      assert es[..n] == first;
    } else if n == 4 {
      assert rest == [es[3]];
      One(w1, sid, es[3]);
    } else if n == 5 {
      assert rest == [es[3]] + [es[4]];
      ApplyAllConcat(w1, sid, [es[3]], [es[4]]);
      One(w1, sid, es[3]);
      One(Apply(w1, sid, es[3]), sid, es[4]);
    }
  }

  lemma One(w: World, sid: SessionId, e: Effect)
    ensures ApplyAll(w, sid, [e]) == Apply(w, sid, e)
  {
  }

  /** Killed between its saved intent and its remote write, `advance` has submitted nothing. */
  lemma Interrupted(w: World, sid: SessionId, action: Action, input: Input)
    requires Ready(w, sid, action) && Smooth(input)
    ensures var w' := Execute(w, Call(sid, Advance(input), |ClaimEffects(w)| + 2));
            && w'.log == w.log && w'.lease == Some(sid) && Waiting(w', sid, action)
            && w'.states[sid].phase == w.states[sid].phase && SameSession(w.states[sid], w'.states[sid])
  {
    var s := if action == Qualify then w.states[sid].(admitted := Some(true)) else w.states[sid];
    SmoothEffects(w, sid, action, input);
    EffectList(s, action, input);
    var claim, es := ClaimEffects(w), EffectOutcome(s, action, input, false).effects;
    assert Cut(claim + es, |claim| + 2) == claim + ([es[0]] + [es[1]]);
    ApplyAllConcat(w, sid, claim, [es[0]] + [es[1]]);
    ClaimAllowed(w, sid);
    var w1 := w.(lease := Some(sid));
    ApplyAllConcat(w1, sid, [es[0]], [es[1]]);
    One(w1, sid, es[0]);
    One(Apply(w1, sid, es[0]), sid, es[1]);
  }

  /** A pending action whose verified result is observed is accepted without another write. */
  lemma Adopt(w: World, sid: SessionId, action: Action, input: Input, result: Evidence, steps: nat)
    requires Waiting(w, sid, action) && Smooth(input) && input.remote == Observed(result)
    requires Acceptable(w.states[sid], action, result) && steps >= |ClaimEffects(w)| + 2
    ensures var w' := Execute(w, Call(sid, Advance(input), steps));
            && w'.log == w.log && w'.lease == Some(sid) && sid in w'.states
            && w'.states[sid].phase == PhaseAfter(action) && w'.states[sid].pending.None?
            && SameSession(w.states[sid], w'.states[sid])
  {
    var s := w.states[sid];
    assert s.authorizations + input.authorize == s.authorizations;
    var claim, es := ClaimEffects(w), SaveEffects(Accepted(s, action, result), Reconciled(action));
    assert Effects(w, Call(sid, Advance(input), steps)) == claim + es;
    assert Cut(claim + es, steps) == claim + es;
    ApplyAllConcat(w, sid, claim, es);
    ClaimAllowed(w, sid);
    var w1 := w.(lease := Some(sid));
    assert es == [es[0]] + [es[1]];
    ApplyAllConcat(w1, sid, [es[0]], [es[1]]);
    One(w1, sid, es[0]);
    One(Apply(w1, sid, es[0]), sid, es[1]);
  }

  /** One action, dispatched and then reconciled. */
  lemma Round(w: World, sid: SessionId, action: Action, send: Input, read: Input, result: Evidence, steps: nat,
      steps': nat)
    requires Ready(w, sid, action) && Smooth(send) && steps >= |ClaimEffects(w)| + 3
    requires Smooth(read) && read.remote == Observed(result) && Acceptable(w.states[sid], action, result) && steps' >= 2
    ensures var w' := Execute(Execute(w, Call(sid, Advance(send), steps)), Call(sid, Advance(read), steps'));
            && w'.log == w.log + [Submission(sid, action, send.operation)] && w'.lease == Some(sid)
            && sid in w'.states && w'.states[sid].phase == PhaseAfter(action) && w'.states[sid].pending.None?
            && SameSession(w.states[sid], w'.states[sid])
  {
    hide Execute, Acceptable;
    Dispatch(w, sid, action, send, steps);
    var w1 := Execute(w, Call(sid, Advance(send), steps));
    StillAcceptable(w.states[sid], w1.states[sid], action, result);
    Adopt(w1, sid, action, read, result, steps');
  }

  lemma StillAcceptable(s: State, t: State, action: Action, result: Evidence)
    requires SameSession(s, t) && Acceptable(s, action, result)
    ensures Acceptable(t, action, result)
  {
  }

  /** The five actions in order, each dispatched and reconciled, and the final verification. */
  function Rounds(w: World, sid: SessionId, actions: seq<Action>, send: Action -> Input, read: Action -> Input,
      steps: nat): World
  {
    if actions == [] then w
    else
      var before := Rounds(w, sid, actions[..|actions| - 1], send, read, steps);
      var action := actions[|actions| - 1];
      Execute(Execute(before, Call(sid, Advance(send(action)), steps)), Call(sid, Advance(read(action)), steps))
  }

  const ALL := [Qualify, DryRun, Tag, Publish, GithubRelease]

  /** The remote's verified result of each action, for this session. */
  ghost predicate Cooperative(s: State, send: Action -> Input, read: Action -> Input) {
    forall a :: Smooth(send(a)) && Smooth(read(a)) && read(a).remote.Observed?
        && Acceptable(s, a, read(a).remote.result)
  }

  lemma {:induction false} RoundsProgress(w: World, sid: SessionId, n: nat, send: Action -> Input,
      read: Action -> Input, steps: nat)
    requires n <= 5 && steps >= 4
    requires Ready(w, sid, Qualify) && w.states[sid].phase == Prepared && w.lease == Some(sid)
    requires w.states[sid].authorizations == {Qualify, DryRun, Tag, Publish, GithubRelease}
    requires Cooperative(w.states[sid], send, read)
    ensures var w' := Rounds(w, sid, ALL[..n], send, read, steps);
            && w'.log == w.log + seq(n, i requires 0 <= i < n => Submission(sid, ALL[i], send(ALL[i]).operation))
            && w'.lease == Some(sid) && sid in w'.states && SameSession(w.states[sid], w'.states[sid])
            && w'.states[sid].pending.None?
            && w'.states[sid].phase == if n == 0 then Prepared else PhaseAfter(ALL[n - 1])
  {
    hide Execute, Acceptable, Smooth;
    if n > 0 {
      RoundsProgress(w, sid, n - 1, send, read, steps);
      assert ALL[..n][..n - 1] == ALL[..n - 1] && ALL[..n][n - 1] == ALL[n - 1];
      var before, a := Rounds(w, sid, ALL[..n - 1], send, read, steps), ALL[n - 1];
      StillAcceptable(w.states[sid], before.states[sid], a, read(a).remote.result);
      assert Ready(before, sid, a);
      Round(before, sid, a, send(a), read(a), read(a).remote.result, steps, steps);
    }
  }

  lemma CompleteStep(w: World, sid: SessionId, input: Input, steps: nat)
    requires sid in w.states && w.lease == Some(sid) && Smooth(input) && steps >= 3
    requires w.states[sid].phase == GithubReleased && w.states[sid].pending.None?
    ensures var w' := Execute(w, Call(sid, Advance(input), steps));
            && w'.log == w.log && w'.lease == None && sid in w'.states && w'.states[sid].phase == Complete
  {
    var s := w.states[sid];
    assert s.authorizations + input.authorize == s.authorizations;
    var es := SaveEffects(CompletedState(s), PublicVerified);
    assert Effects(w, Call(sid, Advance(input), steps))
        == [] + (es + [ReleaseLease]) == [es[0]] + ([es[1]] + [ReleaseLease]);
    ApplyAllConcat(w, sid, [es[0]], [es[1]] + [ReleaseLease]);
    var w1 := Apply(w, sid, es[0]);
    ApplyAllConcat(w1, sid, [es[1]], [ReleaseLease]);
    One(w, sid, es[0]);
    One(w1, sid, es[1]);
    One(Apply(w1, sid, es[1]), sid, ReleaseLease);
  }

  /**
   A fully authorized release that meets no refusal performs each of the five actions exactly
   once, in order, ends complete and gives the lease back.
   */
  lemma FullRelease(w: World, sid: SessionId, send: Action -> Input, read: Action -> Input, last: Input, steps: nat)
    requires steps >= 4 && Smooth(last)
    requires Ready(w, sid, Qualify) && w.states[sid].phase == Prepared && w.lease == Some(sid)
    requires w.states[sid].authorizations == {Qualify, DryRun, Tag, Publish, GithubRelease}
    requires Cooperative(w.states[sid], send, read)
    ensures var w' := Execute(Rounds(w, sid, ALL, send, read, steps), Call(sid, Advance(last), steps));
            && w'.log == w.log + seq(5, i requires 0 <= i < 5 => Submission(sid, ALL[i], send(ALL[i]).operation))
            && sid in w'.states && w'.states[sid].phase == Complete && w'.lease == None
  {
    hide Execute;
    assert ALL[..5] == ALL;
    RoundsProgress(w, sid, 5, send, read, steps);
    CompleteStep(Rounds(w, sid, ALL, send, read, steps), sid, last, steps);
  }

  // ----- a submission can be missing

  const QUIET := Input({}, None, true, Absent, true, true, true, true, true, 0, NoFault, true, false)

  function Sends(operation: OperationId): Input { QUIET.(operation := operation) }

  function Reads(operation: OperationId, result: Evidence): Input {
    QUIET.(operation := operation, remote := Observed(result))
  }

  /**
   Killed after its intent was saved and before it dispatched, a session adopts a qualification
   run that someone else started, and goes on: its first submission is the dry run.
   */
  function AdoptionRun(candidate: string, version: string): seq<Call> {
    [Call(0, Initialize(candidate, version, {Qualify, DryRun}, None, true), 3),
     Call(0, Advance(Sends(1)), 2),
     Call(0, Advance(Reads(2, Evidence(true, candidate, version, map[]))), 9),
     Call(0, Advance(Sends(3)), 9)]
  }

  lemma SubmissionsCanSkip(candidate: string, version: string)
    ensures DistinctOperations(AdoptionRun(candidate, version))
    ensures var log := Run(AdoptionRun(candidate, version)).log;
            Actions(log, 0) == [DryRun] && !Gapless(log, 0)
  {
    hide Execute;
    var calls := AdoptionRun(candidate, version);
    RunStep(calls, 0);
    RunStep(calls, 1);
    RunStep(calls, 2);
    RunStep(calls, 3);
    assert calls[..4] == calls && calls[..0] == [];
    Initialized(calls[0], candidate, version);
    Interrupted(Run(calls[..1]), 0, Qualify, Sends(1));
    var result := Evidence(true, candidate, version, map[]);
    Adopt(Run(calls[..2]), 0, Qualify, Reads(2, result), result, 9);
    Dispatch(Run(calls[..3]), 0, DryRun, Sends(3), 9);
    var log := Run(calls).log;
    assert log == [Submission(0, DryRun, 3)];
    assert log[..0] == [];
    assert log[0] in log && !Logged(log, 0, Qualify);
  }

  lemma RunStep(calls: seq<Call>, n: nat)
    requires n < |calls|
    ensures Run(calls[..n + 1]) == Execute(Run(calls[..n]), calls[n])
  {
    hide Execute;
    assert calls[..n + 1][..n] == calls[..n];
  }

  lemma Initialized(call: Call, candidate: string, version: string)
    requires call == Call(0, Initialize(candidate, version, {Qualify, DryRun}, None, true), 3)
    ensures var w := Execute(START, call);
            && w.log == [] && w.lease == Some(0) && Ready(w, 0, Qualify) && w.states[0].phase == Prepared
            && w.states[0].candidate == candidate && w.states[0].version == version
            && w.states[0].authorizations == {Qualify, DryRun}
  {
    var es := SaveEffects(NewState(candidate, version, {Qualify, DryRun}, None), Session.Initialized);
    assert Effects(START, call) == [es[0]] + ([es[1]] + [ClaimLease]);
    ApplyAllConcat(START, 0, [es[0]], [es[1]] + [ClaimLease]);
    var w1 := Apply(START, 0, es[0]);
    ApplyAllConcat(w1, 0, [es[1]], [ClaimLease]);
    One(START, 0, es[0]);
    One(w1, 0, es[1]);
    One(Apply(w1, 0, es[1]), 0, ClaimLease);
  }

  // ----- what no test of the files can tell

  /** Everything that a later call can read without asking the remote. */
  datatype Disk = Disk(states: map<SessionId, State>, journals: map<SessionId, seq<Entry>>, lease: Option<SessionId>)

  function DiskOf(w: World): Disk {
    Disk(w.states, w.journals, w.lease)
  }

  lemma TwoOrThree(w: World, sid: SessionId, claim: seq<Effect>, es: seq<Effect>)
    requires |es| >= 3 && es[0].Append? && es[1].Replace? && es[2].Submit?
    ensures var n := |claim| + 2;
            var held := ApplyAll(w, sid, claim);
            var before, after := ApplyAll(w, sid, Cut(claim + es, n)), ApplyAll(w, sid, Cut(claim + es, n + 1));
            && after == Apply(before, sid, es[2]) && before == Apply(Apply(held, sid, es[0]), sid, es[1])
  {
    hide Apply, ApplyAll;
    var n, two := |claim| + 2, [es[0]] + [es[1]];
    var held := ApplyAll(w, sid, claim);
    assert Cut(claim + es, n) == claim + two && Cut(claim + es, n + 1) == (claim + two) + [es[2]];
    ApplyAllConcat(w, sid, claim + two, [es[2]]);
    One(ApplyAll(w, sid, claim + two), sid, es[2]);
    ApplyAllConcat(w, sid, claim, two);
    ApplyAllConcat(held, sid, [es[0]], [es[1]]);
    One(held, sid, es[0]);
    One(Apply(held, sid, es[0]), sid, es[1]);
  }

  /**
   Killed just before or just after its remote write, a call leaves the same files, without a
   flag, and a submission more or less.
   */
  lemma SameDisk(w: World, sid: SessionId, action: Action, input: Input)
    requires Ready(w, sid, action) && Smooth(input)
    ensures var n := |ClaimEffects(w)| + 2;
            var before, after := Execute(w, Call(sid, Advance(input), n)), Execute(w, Call(sid, Advance(input), n + 1));
            && DiskOf(before) == DiskOf(after) && Waiting(before, sid, action) && !Flagged(before.states[sid])
            && before.log == w.log && after.log == w.log + [Submission(sid, action, input.operation)]
  {
    hide ApplyAll, AdvanceOutcome, EffectOutcome, SaveEffects, ClaimEffects, Cut;
    var s := if action == Qualify then w.states[sid].(admitted := Some(true)) else w.states[sid];
    SmoothEffects(w, sid, action, input);
    EffectList(s, action, input);
    ClaimAllowed(w, sid);
    TwoOrThree(w, sid, ClaimEffects(w), EffectOutcome(s, action, input, false).effects);
  }

  /** The first call of a release, killed after `steps` effects. */
  function KilledRun(candidate: string, version: string, steps: nat): seq<Call> {
    [Call(0, Initialize(candidate, version, {Qualify, DryRun}, None, true), 3), Call(0, Advance(Sends(1)), steps)]
  }

  /**
   So no test of the files is finer than the flags: each one is wrong, after some run, about
   whether the pending action was submitted.
   */
  lemma NoDiskTest(test: Disk -> bool, candidate: string, version: string) returns (calls: seq<Call>)
    ensures DistinctOperations(calls)
    ensures var w := Run(calls);
            && 0 in w.states && w.states[0].pending.Some? && w.states[0].pending.value.action == Qualify
            && test(DiskOf(w)) != Logged(w.log, 0, Qualify)
  {
    hide Execute, DiskOf;
    var two, three := KilledRun(candidate, version, 2), KilledRun(candidate, version, 3);
    RunStep(two, 0);
    RunStep(two, 1);
    RunStep(three, 0);
    RunStep(three, 1);
    assert two[..1] == [two[0]] == three[..1] && two[..2] == two && three[..2] == three && two[..0] == [] == three[..0];
    Initialized(two[0], candidate, version);
    var w := Run(two[..1]);
    SameDisk(w, 0, Qualify, Sends(1));
    SameStates(Run(two), Run(three));
    assert Submission(0, Qualify, 1) in Run(three).log;
    calls := if test(DiskOf(Run(two))) then two else three;
  }

  lemma SameStates(w: World, v: World)
    requires DiskOf(w) == DiskOf(v)
    ensures w.states == v.states
  {
  }
}
