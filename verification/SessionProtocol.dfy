/**
 The protocol that every primitive effect of the release controller obeys, the invariant it
 keeps, and what that invariant says of every run with crashes.
 */
module SessionProtocol {
  import opened Results
  import opened Session

  /** The phase reached, whether or not the session was superseded there. */
  function BasePhase(state: State): Phase {
    if state.phase == Superseded && state.supersededFrom.Some? then state.supersededFrom.value else state.phase
  }

  /** How many actions have been accepted. */
  function PhaseRank(phase: Phase): nat {
    match phase
    case Prepared => 0
    case Qualified => 1
    case DryRunVerified => 2
    case Tagged => 3
    case Published => 4
    case GithubReleased => 5
    case Complete => 5
    case Superseded => 5
  }

  ghost predicate Logged(log: seq<Submission>, sid: SessionId, action: Action) {
    exists x :: x in log && x.session == sid && x.action == action
  }

  ghost predicate OperationUsed(log: seq<Submission>, operation: OperationId) {
    exists x :: x in log && x.operation == operation
  }

  /** The entry under which a state was journalled. */
  predicate Records(entry: Entry, state: State) {
    entry.revision == state.revision && entry.phase == state.phase && entry.pending == state.pending
  }

  predicate JournalledNow(w: World, sid: SessionId, state: State) {
    Journal(w, sid) != [] && Records(Journal(w, sid)[|Journal(w, sid)| - 1], state)
  }

  /** One replacement of a state by another that keeps its identity and its grants. */
  predicate Continues(s: State, t: State) {
    t.candidate == s.candidate && t.version == s.version && s.authorizations <= t.authorizations
  }

  /** Nothing moves but notes: same phase, and the same action pending or none. */
  predicate Notes(s: State, t: State) {
    && t.phase == s.phase && t.supersededFrom == s.supersededFrom && t.tagRetained == s.tagRetained
    && t.records == s.records
    && t.pending.Some? == s.pending.Some?
    && (t.pending.Some? ==> t.pending.value.action == s.pending.value.action)
  }

  predicate Intends(s: State, t: State) {
    && !Finished(s.phase) && t.phase == s.phase && t.supersededFrom == s.supersededFrom
    && t.tagRetained == s.tagRetained && t.records == s.records
    && s.pending.None? && t.pending.Some? && Next(s.phase) == Some(t.pending.value.action)
    && t.pending.value.action in t.authorizations
  }

  /** An intent is taken back; the caller adds that its action was never submitted. */
  predicate Withdraws(s: State, t: State) {
    && !Finished(s.phase) && t.phase == s.phase && t.supersededFrom == s.supersededFrom
    && t.tagRetained == s.tagRetained && t.records == s.records
    && s.pending.Some? && t.pending.None?
  }

  predicate Accepts(s: State, t: State) {
    && !Finished(s.phase) && s.pending.Some? && t.pending.None?
    && t.phase == PhaseAfter(s.pending.value.action) && t.tagRetained == s.tagRetained
    && t.supersededFrom == s.supersededFrom
    && s.pending.value.action in t.records
    && t.records[s.pending.value.action].verified && t.records[s.pending.value.action].candidate == s.candidate
    && t.records == s.records[s.pending.value.action := t.records[s.pending.value.action]]
  }

  predicate Completes(s: State, t: State) {
    s.phase == GithubReleased && s.pending.None? && t.phase == Complete && t.pending.None? && t.records == s.records
  }

  predicate Supersedes(s: State, t: State) {
    && PhaseRank(s.phase) <= 3 && s.phase != Superseded
    && t.phase == Superseded && t.supersededFrom == Some(s.phase) && t.pending == s.pending && t.records == s.records
    && (s.pending.Some? ==> s.pending.value.action in {Qualify, DryRun})
    && (s.phase == Tagged ==> s.pending.None? && RetainsTag(t))
  }

  /** The retained tag is the accepted one, of this version and this candidate. */
  predicate RetainsTag(t: State) {
    && Tag in t.records && t.records[Tag].verified && t.records[Tag].candidate == t.candidate
    && t.records[Tag].refs.Keys == {TagReference(t), Peeled(TagReference(t))}
    && t.records[Tag].refs[Peeled(TagReference(t))] == t.candidate
    && t.tagRetained == Some(Retained(TagReference(t), t.records[Tag].refs[TagReference(t)], t.candidate))
  }

  /** Whether the state on disk says that the pending action was handed to the remote. */
  predicate Flagged(s: State) {
    s.pending.Some? && (s.pending.value.submitted || s.pending.value.unknown)
  }

  /** A flag is only written once the action is in the log. */
  ghost predicate FlagsBacked(log: seq<Submission>, sid: SessionId, s: State) {
    Flagged(s) ==> Logged(log, sid, s.pending.value.action)
  }

  ghost predicate MayReplace(w: World, sid: SessionId, t: State) {
    JournalledNow(w, sid, t) && MayBecome(w, sid, t) && FlagsBacked(w.log, sid, t)
  }

  ghost predicate MayBecome(w: World, sid: SessionId, t: State) {
    if sid !in w.states then
         t.phase == Prepared && t.pending.None? && t.records == map[] && t.supersededFrom.None? && t.tagRetained.None?
         && !exists x :: x in w.log && x.session == sid
       else
         var s := w.states[sid];
         && Continues(s, t)
         && (|| Notes(s, t) || Intends(s, t) || Accepts(s, t) || Completes(s, t) || Supersedes(s, t)
             || (Withdraws(s, t) && !Logged(w.log, sid, s.pending.value.action)))
  }

  ghost predicate MaySubmit(w: World, sid: SessionId, action: Action, operation: OperationId) {
    && sid in w.states && !Finished(w.states[sid].phase) && w.lease == Some(sid)
    && action in w.states[sid].authorizations
    && w.states[sid].pending.Some? && w.states[sid].pending.value.action == action
    && w.states[sid].pending.value.operation == operation
    && JournalledNow(w, sid, w.states[sid])
    && (Repairable(action) || !Logged(w.log, sid, action))
    && !OperationUsed(w.log, operation)
  }

  /** What the protocol lets session sid do next. */
  ghost predicate Allowed(w: World, sid: SessionId, e: Effect) {
    match e
    case Append(entry) => true
    case Replace(state) => MayReplace(w, sid, state)
    case ClaimLease => w.lease == None
    case ReleaseLease => w.lease == Some(sid) && sid in w.states && Finished(w.states[sid].phase)
    case Submit(action, operation) => MaySubmit(w, sid, action, operation)
  }

  ghost predicate AllowedAll(w: World, sid: SessionId, es: seq<Effect>)
    decreases |es|
  {
    es == [] || (Allowed(w, sid, es[0]) && AllowedAll(Apply(w, sid, es[0]), sid, es[1..]))
  }

  lemma {:induction false} AllowedConcat(w: World, sid: SessionId, es: seq<Effect>, fs: seq<Effect>)
    requires AllowedAll(w, sid, es) && AllowedAll(ApplyAll(w, sid, es), sid, fs)
    ensures AllowedAll(w, sid, es + fs)
    decreases |es|
  {
    if es == [] {
      assert es + fs == fs;
    } else {
      assert (es + fs)[0] == es[0] && (es + fs)[1..] == es[1..] + fs;
      AllowedConcat(Apply(w, sid, es[0]), sid, es[1..], fs);
    }
  }

  lemma {:induction false} AllowedPrefix(w: World, sid: SessionId, es: seq<Effect>, n: nat)
    requires AllowedAll(w, sid, es) && n <= |es|
    ensures AllowedAll(w, sid, es[..n])
    decreases n
  {
    if n > 0 {
      assert es[..n][0] == es[0] && es[..n][1..] == es[1..][..n - 1];
      AllowedPrefix(Apply(w, sid, es[0]), sid, es[1..], n - 1);
    }
  }

  // ----- the invariant

  /** One session's submissions, read against its state on disk. */
  ghost predicate SessionInv(w: World, sid: SessionId)
    requires sid in w.states
  {
    var s := w.states[sid];
    var base := BasePhase(s);
    && (s.phase == Superseded ==> s.supersededFrom.Some? && PhaseRank(base) <= 3 && base != Superseded)
    && (s.phase == Superseded && s.pending.Some? ==> s.pending.value.action in {Qualify, DryRun})
    && (s.phase == Superseded && base == Tagged ==> s.pending.None? && RetainsTag(s))
    && (s.pending.Some? ==> Next(base) == Some(s.pending.value.action) && s.pending.value.action in s.authorizations)
    && (forall x :: x in w.log && x.session == sid ==>
          && ActionRank(x.action) <= PhaseRank(base)
          && (ActionRank(x.action) == PhaseRank(base) ==> s.pending.Some? && s.pending.value.action == x.action)
          && x.action in s.authorizations)
    && (!Finished(s.phase) && (exists x :: x in w.log && x.session == sid) ==> w.lease == Some(sid))
  }

  /** The state on disk has its entry in the journal. */
  ghost predicate Journalled(w: World, sid: SessionId)
    requires sid in w.states
  {
    exists entry :: entry in Journal(w, sid) && Records(entry, w.states[sid])
  }

  /** The intent of a submission was journalled. */
  ghost predicate IntentJournalled(w: World, x: Submission) {
    exists entry :: entry in Journal(w, x.session)
      && entry.pending.Some? && entry.pending.value.action == x.action && entry.pending.value.operation == x.operation
  }

  /** Later submissions of one session have a higher rank, or repeat a repairable action. */
  ghost predicate Ordered(log: seq<Submission>) {
    forall i, j :: 0 <= i < j < |log| && log[i].session == log[j].session ==>
      || ActionRank(log[i].action) < ActionRank(log[j].action)
      || (log[i].action == log[j].action && Repairable(log[i].action))
  }

  /** Once a session has submitted, nothing of another session comes before its last submission. */
  ghost predicate Contiguous(log: seq<Submission>) {
    forall i, j, k :: 0 <= i < j < k < |log| && log[i].session == log[k].session ==> log[j].session == log[i].session
  }

  ghost predicate FreshOperations(log: seq<Submission>) {
    forall i, j :: 0 <= i < j < |log| ==> log[i].operation != log[j].operation
  }

  predicate Unfinished(w: World, sid: SessionId) {
    sid in w.states && !Finished(w.states[sid].phase)
  }

  /** After the first submission of an unfinished session, all submissions are its own. */
  ghost predicate TailOwned(w: World) {
    forall i, j :: 0 <= i < j < |w.log| && Unfinished(w, w.log[i].session) ==> w.log[j].session == w.log[i].session
  }

  ghost predicate Inv(w: World) {
    && (forall sid :: sid in w.states ==> SessionInv(w, sid) && Journalled(w, sid))
    && (forall sid :: sid in w.states ==> FlagsBacked(w.log, sid, w.states[sid]))
    && (forall x :: x in w.log ==> x.session in w.states && IntentJournalled(w, x))
    && Ordered(w.log) && Contiguous(w.log) && FreshOperations(w.log) && TailOwned(w)
  }

  const START := World(map[], map[], None, [])

  lemma StartInv()
    ensures Inv(START)
  {
  }

  // ----- every allowed effect keeps it

  lemma NextRank(phase: Phase, a: Action)
    requires Next(phase) == Some(a)
    ensures ActionRank(a) == PhaseRank(phase) && PhaseRank(PhaseAfter(a)) == ActionRank(a) + 1
    ensures forall b :: ActionRank(b) == ActionRank(a) ==> b == a
  {
  }

  /** Journals only grow, so what they record stays recorded. */
  lemma JournalsGrow(w: World, w': World)
    requires Inv(w) && w'.log == w.log && w.states.Keys <= w'.states.Keys
    requires forall other, e :: e in Journal(w, other) ==> e in Journal(w', other)
    ensures forall x :: x in w'.log ==> x.session in w'.states && IntentJournalled(w', x)
    ensures forall sid :: sid in w.states && w'.states[sid] == w.states[sid] ==> Journalled(w', sid)
  {
  }

  /** A session whose state, lease and log entries are untouched keeps its part of the invariant. */
  lemma SessionUntouched(w: World, w': World, sid: SessionId)
    requires sid in w.states && SessionInv(w, sid) && w'.log == w.log
    requires sid in w'.states && w'.states[sid] == w.states[sid]
    requires w.lease == Some(sid) && !Finished(w.states[sid].phase) ==> w'.lease == w.lease
    ensures SessionInv(w', sid)
  {
  }

  lemma AppendKeeps(w: World, sid: SessionId, entry: Entry)
    requires Inv(w)
    ensures Inv(Apply(w, sid, Append(entry)))
  {
    hide SessionInv, Ordered, Contiguous, FreshOperations, FlagsBacked, IntentJournalled;
    var w' := Apply(w, sid, Append(entry));
    JournalsGrow(w, w');
    forall other | other in w'.states ensures SessionInv(w', other) {
      SessionUntouched(w, w', other);
    }
  }

  lemma ReplacedSession(w: World, sid: SessionId, t: State)
    requires Inv(w) && MayReplace(w, sid, t)
    ensures SessionInv(Apply(w, sid, Replace(t)), sid)
  {
    hide Journalled, IntentJournalled, Ordered, Contiguous, FreshOperations, FlagsBacked, TailOwned;
    if sid in w.states {
      var s := w.states[sid];
      assert SessionInv(w, sid);
      if s.pending.Some? { NextRank(BasePhase(s), s.pending.value.action); }
      if t.pending.Some? && Next(BasePhase(t)).Some? { NextRank(BasePhase(t), Next(BasePhase(t)).value); }
    }
  }

  lemma ReplaceKeeps(w: World, sid: SessionId, t: State)
    requires Inv(w) && MayReplace(w, sid, t)
    ensures Inv(Apply(w, sid, Replace(t)))
  {
    hide SessionInv, IntentJournalled, MayBecome;
    var w' := Apply(w, sid, Replace(t));
    JournalsGrow(w, w');
    ReplacedSession(w, sid, t);
    forall other | other in w'.states ensures SessionInv(w', other) && Journalled(w', other) {
      if other == sid {
        assert Journal(w', sid)[|Journal(w', sid)| - 1] in Journal(w', sid);
      } else {
        SessionUntouched(w, w', other);
      }
    }
    ReplaceKeepsTail(w, sid, t);
  }

  lemma ReplaceKeepsTail(w: World, sid: SessionId, t: State)
    requires Inv(w) && MayReplace(w, sid, t)
    ensures TailOwned(Apply(w, sid, Replace(t)))
  {
    hide SessionInv, IntentJournalled, Journalled;
    var w' := Apply(w, sid, Replace(t));
    forall i, j | 0 <= i < j < |w'.log| && Unfinished(w', w'.log[i].session)
      ensures w'.log[j].session == w'.log[i].session
    {
      assert w.log[i] in w.log;
      assert Unfinished(w, w.log[i].session);
    }
  }

  lemma LeaseKeeps(w: World, sid: SessionId, e: Effect)
    requires Inv(w) && Allowed(w, sid, e) && (e.ClaimLease? || e.ReleaseLease?)
    ensures Inv(Apply(w, sid, e))
  {
    hide SessionInv, Ordered, Contiguous, FreshOperations, FlagsBacked;
    var w' := Apply(w, sid, e);
    forall other | other in w'.states ensures SessionInv(w', other) {
      LeaseSession(w, sid, e, other);
    }
  }

  lemma LeaseSession(w: World, sid: SessionId, e: Effect, other: SessionId)
    requires Inv(w) && Allowed(w, sid, e) && (e.ClaimLease? || e.ReleaseLease?) && other in w.states
    ensures SessionInv(Apply(w, sid, e), other)
  {
    hide Journalled, IntentJournalled, Ordered, Contiguous, FreshOperations, FlagsBacked;
  }

  lemma SubmitSession(w: World, sid: SessionId, action: Action, operation: OperationId, other: SessionId)
    requires Inv(w) && MaySubmit(w, sid, action, operation) && other in w.states
    ensures SessionInv(Apply(w, sid, Submit(action, operation)), other)
  {
  }

  /** The new submission comes last of its session's, in rank and in time. */
  lemma SubmitOrdered(w: World, sid: SessionId, action: Action, operation: OperationId)
    requires Inv(w) && MaySubmit(w, sid, action, operation)
    ensures Ordered(w.log + [Submission(sid, action, operation)])
    ensures FreshOperations(w.log + [Submission(sid, action, operation)])
  {
    var log := w.log + [Submission(sid, action, operation)];
    assert SessionInv(w, sid);
    NextRank(BasePhase(w.states[sid]), action);
    forall i, j | 0 <= i < j < |log| && log[i].session == log[j].session
      ensures ActionRank(log[i].action) < ActionRank(log[j].action)
              || (log[i].action == log[j].action && Repairable(log[i].action))
    {
      assert log[i] in w.log;
    }
    forall i, j | 0 <= i < j < |log| ensures log[i].operation != log[j].operation {
      assert log[i] in w.log;
    }
  }

  lemma SubmitContiguous(w: World, sid: SessionId, action: Action, operation: OperationId)
    requires Inv(w) && MaySubmit(w, sid, action, operation)
    ensures Contiguous(w.log + [Submission(sid, action, operation)])
    ensures TailOwned(Apply(w, sid, Submit(action, operation)))
  {
    var w' := Apply(w, sid, Submit(action, operation));
    var log := w'.log;
    forall i, j | 0 <= i < j < |log| && Unfinished(w', log[i].session) ensures log[j].session == log[i].session {
      assert log[i] in w.log;
      assert SessionInv(w, log[i].session);
      assert Unfinished(w, log[i].session);
    }
    forall i, j, k | 0 <= i < j < k < |log| && log[i].session == log[k].session
      ensures log[j].session == log[i].session
    {
      if k == |w.log| { assert Unfinished(w, log[i].session); }
    }
  }

  lemma SubmitKeeps(w: World, sid: SessionId, action: Action, operation: OperationId)
    requires Inv(w) && MaySubmit(w, sid, action, operation)
    ensures Inv(Apply(w, sid, Submit(action, operation)))
  {
    var w' := Apply(w, sid, Submit(action, operation));
    forall other | other in w'.states ensures SessionInv(w', other) && Journalled(w', other) {
      SubmitSession(w, sid, action, operation, other);
      assert Journalled(w, other) && Journal(w', other) == Journal(w, other);
    }
    var last := Journal(w, sid)[|Journal(w, sid)| - 1];
    forall x | x in w'.log ensures x.session in w'.states && IntentJournalled(w', x) {
      assert Journal(w', x.session) == Journal(w, x.session);
      if x in w.log {
        assert IntentJournalled(w, x);
      } else {
        assert last in Journal(w', x.session);
      }
    }
    SubmitOrdered(w, sid, action, operation);
    SubmitContiguous(w, sid, action, operation);
  }

  lemma StepKeeps(w: World, sid: SessionId, e: Effect)
    requires Inv(w) && Allowed(w, sid, e)
    ensures Inv(Apply(w, sid, e))
  {
    hide Inv;
    match e
    case Append(entry) => AppendKeeps(w, sid, entry);
    case Replace(state) => ReplaceKeeps(w, sid, state);
    case ClaimLease => LeaseKeeps(w, sid, e);
    case ReleaseLease => LeaseKeeps(w, sid, e);
    case Submit(action, operation) => SubmitKeeps(w, sid, action, operation);
  }

  lemma {:induction false} StepsKeep(w: World, sid: SessionId, es: seq<Effect>)
    requires Inv(w) && AllowedAll(w, sid, es)
    ensures Inv(ApplyAll(w, sid, es))
    decreases |es|
  {
    hide Inv;
    if es != [] {
      StepKeeps(w, sid, es[0]);
      StepsKeep(Apply(w, sid, es[0]), sid, es[1..]);
    }
  }
}
