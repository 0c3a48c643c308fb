/**
 Durable release sessions of manual_release.py.

 Each operation, run under the lock, is described by the list of primitive persistent effects
 it performs: a journal append, a state replacement, a lease write or removal, a remote
 submission.  A crash keeps some prefix of that list.  Everything the operation learns from
 outside (the remote, the source tree, I/O errors) is part of its input.
 */
module Session {
  import opened Results

  type SessionId = nat
  type OperationId = nat

  datatype Action = Qualify | DryRun | Tag | Publish | GithubRelease

  datatype Phase = Prepared | Qualified | DryRunVerified | Tagged | Published | GithubReleased | Complete | Superseded

  function ActionRank(a: Action): nat {
    match a
    case Qualify => 0
    case DryRun => 1
    case Tag => 2
    case Publish => 3
    case GithubRelease => 4
  }

  /** The action that a phase allows next. */
  function Next(phase: Phase): Option<Action> {
    match phase
    case Prepared => Some(Qualify)
    case Qualified => Some(DryRun)
    case DryRunVerified => Some(Tag)
    case Tagged => Some(Publish)
    case Published => Some(GithubRelease)
    case _ => None
  }

  /** The phase that an accepted action leads to. */
  function PhaseAfter(a: Action): Phase {
    match a
    case Qualify => Qualified
    case DryRun => DryRunVerified
    case Tag => Tagged
    case Publish => Published
    case GithubRelease => GithubReleased
  }

  predicate Finished(phase: Phase) { phase == Complete || phase == Superseded }

  /** The two actions whose repetition the remote makes idempotent. */
  predicate Repairable(a: Action) { a == Tag || a == GithubRelease }

  /** A result read back from the remote; `refs` is the tag's references. */
  datatype Evidence = Evidence(verified: bool, candidate: string, version: string, refs: map<string, string>)

  datatype Pending = Pending(action: Action, operation: OperationId, repair: bool, unknown: bool, submitted: bool,
                             previous: Option<OperationId>, failure: Option<nat>)

  datatype Retained = Retained(ref: string, objectSha: string, sourceSha: string)

  datatype State = State(
    candidate: string, version: string, phase: Phase, authorizations: set<Action>, preflight: Option<nat>,
    admitted: Option<bool>, pending: Option<Pending>, revision: nat, records: map<Action, Evidence>,
    supersededFrom: Option<Phase>, tagRetained: Option<Retained>, publicVerified: bool)

  datatype Event =
    | Initialized | AuthorizationUpdated | RemoteFailed(action: Action) | Reconciled(action: Action)
    | PublicVerified | PreparationBlocked | Intent(action: Action) | ValidationRefused(action: Action)
    | UnknownOutcome(action: Action) | SubmittedEvent(action: Action) | ExplicitlySuperseded

  datatype Entry = Entry(revision: nat, event: Event, phase: Phase, pending: Option<Pending>)

  datatype Submission = Submission(session: SessionId, action: Action, operation: OperationId)

  /** state.json and events.jsonl of every session, the shared lease, and the remote writes performed so far. */
  datatype World = World(
    states: map<SessionId, State>, journals: map<SessionId, seq<Entry>>,
    lease: Option<SessionId>, log: seq<Submission>)

  datatype Effect =
    | Append(entry: Entry) | Replace(state: State) | ClaimLease | ReleaseLease
    | Submit(action: Action, operation: OperationId)

  function Journal(w: World, sid: SessionId): seq<Entry> {
    if sid in w.journals then w.journals[sid] else []
  }

  function Apply(w: World, sid: SessionId, e: Effect): World {
    match e
    case Append(entry) => w.(journals := w.journals[sid := Journal(w, sid) + [entry]])
    case Replace(state) => w.(states := w.states[sid := state])
    case ClaimLease => w.(lease := Some(sid))
    case ReleaseLease => w.(lease := None)
    case Submit(action, operation) => w.(log := w.log + [Submission(sid, action, operation)])
  }

  function ApplyAll(w: World, sid: SessionId, es: seq<Effect>): World
    decreases |es|
  {
    if es == [] then w else ApplyAll(Apply(w, sid, es[0]), sid, es[1..])
  }

  /** The effects that happen before a crash after `steps` primitive steps. */
  function Cut(es: seq<Effect>, steps: nat): seq<Effect> {
    if steps < |es| then es[..steps] else es
  }

  lemma {:induction false} ApplyAllConcat(w: World, sid: SessionId, es: seq<Effect>, fs: seq<Effect>)
    ensures ApplyAll(w, sid, es + fs) == ApplyAll(ApplyAll(w, sid, es), sid, fs)
    decreases |es|
  {
    if es == [] {
      assert es + fs == fs;
    } else {
      assert (es + fs)[0] == es[0] && (es + fs)[1..] == es[1..] + fs;
      ApplyAllConcat(Apply(w, sid, es[0]), sid, es[1..], fs);
    }
  }

  // ----- the store

  function EntryOf(state: State, event: Event): Entry {
    Entry(state.revision, event, state.phase, state.pending)
  }

  /** `save`: the state with its new revision, journalled before state.json is replaced. */
  function Saved(state: State): State { state.(revision := state.revision + 1) }

  function SaveEffects(state: State, event: Event): seq<Effect> {
    [Append(EntryOf(Saved(state), event)), Replace(Saved(state))]
  }

  predicate Claimable(w: World, sid: SessionId) { w.lease == None || w.lease == Some(sid) }

  function ClaimEffects(w: World): seq<Effect> {
    if w.lease == None then [ClaimLease] else []
  }

  function ReleaseEffects(w: World, sid: SessionId): seq<Effect> {
    if w.lease == Some(sid) then [ReleaseLease] else []
  }

  // ----- the controller

  datatype Observation =
    | Done | Raised | AwaitingRemote | RemoteRunning | RemoteFailedSeen
    | AwaitingAuthorization | ScopeComplete | Blocked

  datatype Outcome = Outcome(effects: seq<Effect>, observation: Observation)

  /** What `reconcile` reports about a pending operation; `Unreadable` is an exception. */
  datatype Remote = Absent | Running | Failed(failure: nat) | RetrySafe | Observed(result: Evidence) | Unreadable

  /** Where the save of an intent raised, if it did. */
  datatype SaveFault = NoFault | BeforeAppend | AfterAppend | AfterReplace

  /** Everything `advance` learns from outside during one call. */
  datatype Input = Input(
    authorize: set<Action>, preflight: Option<nat>, sourceAtStart: bool, remote: Remote,
    publicVerified: bool, admitted: bool, bundleOk: bool, prepared: bool, sourceBeforeIntent: bool,
    operation: OperationId, intentFault: SaveFault, validated: bool, performRaised: bool)

  function Prepend(es: seq<Effect>, rest: Outcome): Outcome {
    rest.(effects := es + rest.effects)
  }

  function IntentPending(action: Action, input: Input, repair: bool): Pending {
    Pending(action, input.operation, repair, false, false, None, None)
  }

  function IntentState(state: State, action: Action, input: Input, repair: bool): State {
    state.(pending := Some(IntentPending(action, input, repair)))
  }

  /** The part of the intent's save that happened before it raised. */
  function FaultyEffects(state: State, action: Action, fault: SaveFault): seq<Effect> {
    var es := SaveEffects(state, Intent(action));
    match fault
    case NoFault => es
    case BeforeAppend => []
    case AfterAppend => es[..1]
    case AfterReplace => es
  }

  /** The state saved once the remote write has returned or raised. */
  function PerformedState(intent: State, previous: Option<Pending>, input: Input): State
    requires intent.pending.Some?
  {
    var p := intent.pending.value;
    if input.performRaised then intent.(pending := Some(p.(unknown := true)))
    else intent.(pending := Some(p.(submitted := true,
                                    previous := if previous.Some? then Some(previous.value.operation) else None)))
  }

  function PerformedEvent(action: Action, input: Input): Event {
    if input.performRaised then UnknownOutcome(action) else SubmittedEvent(action)
  }

  /** `_effect`: intent on disk, last checks, the remote write, its response on disk. */
  function EffectOutcome(state: State, action: Action, input: Input, repair: bool): Outcome {
    if !input.prepared || !input.sourceBeforeIntent then Outcome([], Raised)
    else
      var intent := IntentState(state, action, input, repair);
      if input.intentFault != NoFault || !input.validated then
        Outcome(FaultyEffects(intent, action, input.intentFault)
                + SaveEffects(Saved(intent).(pending := state.pending), ValidationRefused(action)), Raised)
      else
        Outcome(SaveEffects(intent, Intent(action)) + [Submit(action, input.operation)]
                + SaveEffects(PerformedState(Saved(intent), state.pending, input), PerformedEvent(action, input)), Done)
  }

  /** `_accept`'s demands on a remote result. */
  predicate Acceptable(state: State, action: Action, result: Evidence) {
    result.verified && result.candidate == state.candidate && (action == Qualify ==> result.version == state.version)
  }

  function Accepted(state: State, action: Action, result: Evidence): State {
    state.(records := state.records[action := result], phase := PhaseAfter(action), pending := None)
  }

  function ReconcileOutcome(state: State, pending: Pending, input: Input): Outcome {
    match input.remote
    case Unreadable => Outcome([], Raised)
    case Absent => Outcome([], AwaitingRemote)
    case Running => Outcome([], RemoteRunning)
    case Failed(failure) =>
      Outcome(if pending.failure == Some(failure) then []
              else
                var failed := Some(pending.(failure := Some(failure)));
                SaveEffects(state.(pending := failed), RemoteFailed(pending.action)),
              RemoteFailedSeen)
    case RetrySafe =>
      if !Repairable(pending.action) || pending.action !in state.authorizations || !input.bundleOk
      then Outcome([], Raised)
      else EffectOutcome(state, pending.action, input, true)
    case Observed(result) =>
      if !Acceptable(state, pending.action, result) then Outcome([], Raised)
      else Outcome(SaveEffects(Accepted(state, pending.action, result), Reconciled(pending.action)), Done)
  }

  function CompletedState(state: State): State { state.(publicVerified := true, phase := Complete) }

  /** What `advance` does once the lease is held and the authorizations are saved. */
  function ProceedOutcome(state: State, input: Input): Outcome {
    if state.pending.Some? then ReconcileOutcome(state, state.pending.value, input)
    else if state.phase == GithubReleased then
      if !input.publicVerified then Outcome([], Raised)
      else Outcome(SaveEffects(CompletedState(state), PublicVerified) + [ReleaseLease], Done)
    else if Next(state.phase).None? then Outcome([], Raised)
    else
      var action := Next(state.phase).value;
      if action !in state.authorizations then
        Outcome([], if state.phase == Prepared then AwaitingAuthorization else ScopeComplete)
      else if action == Qualify then
        var admission := state.(admitted := Some(input.admitted));
        if !input.admitted then Outcome(SaveEffects(admission, PreparationBlocked), Blocked)
        else EffectOutcome(admission, action, input, false)
      else if !input.bundleOk then Outcome([], Raised)
      else EffectOutcome(state, action, input, false)
  }

  function Granted(state: State, input: Input): State {
    state.(authorizations := state.authorizations + input.authorize,
           preflight := if input.preflight.Some? then input.preflight else state.preflight)
  }

  predicate Updates(state: State, input: Input) {
    state.authorizations + input.authorize != state.authorizations || input.preflight.Some?
  }

  /** `advance` once the lease is held. */
  function ClaimedOutcome(state: State, input: Input): Outcome {
    if !input.sourceAtStart then Outcome([], Raised)
    else if input.preflight.Some? && !(state.phase == Prepared && state.pending.None?) then Outcome([], Raised)
    else if Updates(state, input) then
      Prepend(
        SaveEffects(Granted(state, input), AuthorizationUpdated), ProceedOutcome(Saved(Granted(state, input)), input))
    else ProceedOutcome(state, input)
  }

  function AdvanceOutcome(w: World, sid: SessionId, input: Input): Outcome {
    if sid !in w.states then Outcome([], Raised)
    else if Finished(w.states[sid].phase) then Outcome(ReleaseEffects(w, sid), Done)
    else if !Claimable(w, sid) then Outcome([], Raised)
    else Prepend(ClaimEffects(w), ClaimedOutcome(w.states[sid], input))
  }

  function NewState(candidate: string, version: string, authorize: set<Action>, preflight: Option<nat>): State {
    State(candidate, version, Prepared, authorize, preflight, None, None, 0, map[], None, None, false)
  }

  function InitializeOutcome(w: World, sid: SessionId, candidate: string, version: string, authorize: set<Action>,
                             preflight: Option<nat>, sourceOk: bool): Outcome
  {
    if sid in w.states then
      var state := w.states[sid];
      if state.candidate != candidate then Outcome([], Raised)
      else if Finished(state.phase) then Outcome(ReleaseEffects(w, sid), Done)
      else if !Claimable(w, sid) then Outcome([], Raised)
      else Outcome(ClaimEffects(w), Done)
    else if Journal(w, sid) != [] || !sourceOk then Outcome([], Raised)
    else
      var es := SaveEffects(NewState(candidate, version, authorize, preflight), Initialized);
      if !Claimable(w, sid) then Outcome(es, Raised) else Outcome(es + ClaimEffects(w), Done)
  }

  function TagReference(state: State): string { "refs/tags/v" + state.version }

  function Peeled(reference: string): string { reference + "^{}" }

  /** The recorded tag names exactly this version's annotated tag on this candidate. */
  predicate VerifiedTag(state: State, shaOk: string -> bool) {
    Tag in state.records
    && var tag := state.records[Tag];
       var reference := TagReference(state);
       && tag.verified && tag.candidate == state.candidate
       && tag.refs.Keys == {reference, Peeled(reference)}
       && shaOk(tag.refs[reference]) && tag.refs[Peeled(reference)] == state.candidate
  }

  predicate Supersedable(state: State, shaOk: string -> bool) {
    && state.phase !in {Published, GithubReleased, Complete}
    && (state.pending.Some? ==> state.pending.value.action in {Qualify, DryRun})
    && (state.phase == Tagged ==> state.pending.None? && Publish !in state.records && VerifiedTag(state, shaOk))
  }

  function SupersededState(state: State): State {
    var reference := TagReference(state);
    state.(phase := Superseded, supersededFrom := Some(state.phase),
           tagRetained := if state.phase == Tagged && Tag in state.records && reference in state.records[Tag].refs
                          then Some(Retained(reference, state.records[Tag].refs[reference], state.candidate))
                          else state.tagRetained)
  }

  function SupersedeOutcome(w: World, sid: SessionId, reasoned: bool, shaOk: string -> bool): Outcome {
    if !reasoned || sid !in w.states then Outcome([], Raised)
    else
      var state := w.states[sid];
      if state.phase == Superseded then Outcome(ReleaseEffects(w, sid), Done)
      else if !Supersedable(state, shaOk) then Outcome([], Raised)
      else Outcome(SaveEffects(SupersededState(state), ExplicitlySuperseded) + ReleaseEffects(w, sid), Done)
  }
}
