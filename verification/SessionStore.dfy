/**
 `Store` and `Controller` of manual_release.py, statement by statement.  A store can be killed
 after any number of primitive persistent steps; each method is proved to leave the files
 exactly as the effect lists of module Session say.
 */
module SessionStore {
  import opened Results
  import opened Session
  import SessionProtocol
  import SessionRuns

  /** The session directories, the git common directory's lease, and the remote's view. */
  class Files {
    var states: map<SessionId, State>
    var journals: map<SessionId, seq<Entry>>
    var lease: Option<SessionId>
    var log: seq<Submission>

    function World(): World
      reads this
    {
      Session.World(states, journals, lease, log)
    }

    constructor ()
      ensures World() == Session.World(map[], map[], None, [])
    {
      states, journals, lease, log := map[], map[], None, [];
    }
  }

  /** `after` extends `before` by the effects es, or by a proper part of them if the process was killed. */
  ghost predicate Wrote(before: seq<Effect>, after: seq<Effect>, es: seq<Effect>, alive: bool) {
    if alive then after == before + es else before <= after && after < before + es
  }

  lemma WroteMore(a: seq<Effect>, b: seq<Effect>, c: seq<Effect>, es: seq<Effect>, fs: seq<Effect>, alive: bool)
    requires Wrote(a, b, es, true) && Wrote(b, c, fs, alive)
    ensures Wrote(a, c, es + fs, alive)
  {
  }

  lemma KilledEarly(a: seq<Effect>, b: seq<Effect>, es: seq<Effect>, fs: seq<Effect>)
    requires Wrote(a, b, es, false)
    ensures Wrote(a, b, es + fs, false)
  {
  }

  lemma NothingWritten(a: seq<Effect>)
    ensures Wrote(a, a, [], true)
  {
  }

  class Store {
    const files: Files
    const sid: SessionId
    var steps: nat
    ghost const start: World
    ghost const budget: nat
    ghost var done: seq<Effect>

    /** The files are what the effects performed so far make of the files found. */
    ghost predicate Valid()
      reads this, files
    {
      files.World() == ApplyAll(start, sid, done) && steps + |done| == budget
    }

    /** The lock is taken by a process that will be killed after `steps` primitive steps. */
    constructor (files: Files, sid: SessionId, steps: nat)
      ensures Valid() && this.files == files && this.sid == sid && done == []
      ensures start == files.World() && budget == steps && this.steps == steps
    {
      this.files := files;
      this.sid := sid;
      this.steps := steps;
      start := files.World();
      budget := steps;
      done := [];
    }

    lemma Extends(w: World, e: Effect)
      requires w == ApplyAll(start, sid, done)
      ensures Apply(w, sid, e) == ApplyAll(start, sid, done + [e])
    {
      ApplyAllConcat(start, sid, done, [e]);
      assert [e][1..] == [];
    }

    method Primitive(e: Effect) returns (alive: bool)
      requires Valid()
      modifies this, files
      ensures Valid() && Wrote(old(done), done, [e], alive) && (!alive ==> steps == 0)
      ensures files.World() == if alive then Apply(old(files.World()), sid, e) else old(files.World())
    {
      if steps == 0 { return false; }
      Extends(files.World(), e);
      match e {
        case Append(entry) => files.journals := files.journals[sid := Journal(files.World(), sid) + [entry]];
        case Replace(state) => files.states := files.states[sid := state];
        case ClaimLease => files.lease := Some(sid);
        case ReleaseLease => files.lease := None;
        case Submit(action, operation) => files.log := files.log + [Submission(sid, action, operation)];
      }
      steps := steps - 1;
      done := done + [e];
      return true;
    }

    method Load() returns (r: Option<State>)
      ensures r == if sid in files.states then Some(files.states[sid]) else None
    {
      r := if sid in files.states then Some(files.states[sid]) else None;
    }

    /** `save`; the fault says where the append or the replacement raised, if it did. */
    method Save(state: State, event: Event) returns (saved: State, alive: bool)
      requires Valid()
      modifies this, files
      ensures Valid() && Wrote(old(done), done, SaveEffects(state, event), alive) && (!alive ==> steps == 0)
      ensures saved == Saved(state) && files.lease == old(files.lease)
    {
      saved := state.(revision := state.revision + 1);
      var es := SaveEffects(state, event);
      alive := Primitive(Append(EntryOf(saved, event)));
      ghost var middle := done;
      assert es == [es[0]] + [es[1]];
      if !alive {
        KilledEarly(old(done), done, [es[0]], [es[1]]);
        return;
      }
      alive := Primitive(Replace(saved));
      WroteMore(old(done), middle, done, [es[0]], [es[1]], alive);
    }

    /** A save that raises part way. */
    method FaultySave(state: State, action: Action, fault: SaveFault) returns (saved: State, alive: bool)
      requires Valid()
      modifies this, files
      ensures Valid() && Wrote(old(done), done, FaultyEffects(state, action, fault), alive) && (!alive ==> steps == 0)
      ensures saved == Saved(state)
    {
      saved := state.(revision := state.revision + 1);
      match fault {
        case BeforeAppend => alive := true;
        case AfterAppend =>
          alive := Primitive(Append(EntryOf(saved, Intent(action))));
          assert SaveEffects(state, Intent(action))[..1] == [Append(EntryOf(saved, Intent(action)))];
        case _ => saved, alive := Save(state, Intent(action));
      }
    }

    /** `claim`; refused means that another session owns the lease. */
    method Claim() returns (refused: bool, alive: bool)
      requires Valid()
      modifies this, files
      ensures Valid() && (!alive ==> steps == 0)
      ensures refused == !Claimable(old(files.World()), sid)
      ensures Wrote(old(done), done, if refused then [] else ClaimEffects(old(files.World())), alive)
      ensures refused ==> files.World() == old(files.World())
      ensures alive && !refused ==> files.lease == Some(sid)
    {
      if files.lease.Some? { return files.lease != Some(sid), true; }
      refused := false;
      alive := Primitive(ClaimLease);
    }

    method Release() returns (alive: bool)
      requires Valid()
      modifies this, files
      ensures Valid() && (!alive ==> steps == 0)
      ensures Wrote(old(done), done, ReleaseEffects(old(files.World()), sid), alive)
    {
      if files.lease == Some(sid) {
        alive := Primitive(ReleaseLease);
      } else {
        alive := true;
      }
    }
  }

  class Controller {
    const store: Store

    constructor (store: Store)
      ensures this.store == store
    {
      this.store := store;
    }

    /** `_effect`: intent on disk, last checks, the remote write, its response on disk. */
    method Effect(state: State, action: Action, input: Input, repair: bool) returns (seen: Observation, alive: bool)
      requires store.Valid()
      modifies store, store.files
      ensures store.Valid() && (!alive ==> store.steps == 0)
      ensures Wrote(old(store.done), store.done, EffectOutcome(state, action, input, repair).effects, alive)
      ensures alive ==> seen == EffectOutcome(state, action, input, repair).observation
    {
      hide Wrote, SaveEffects, FaultyEffects, ApplyAll;
      NothingWritten(store.done);
      seen := Raised;
      if !input.prepared { return Raised, true; }
      if !input.sourceBeforeIntent { return Raised, true; }
      var previous := state.pending;
      var intent := state.(pending := Some(Pending(action, input.operation, repair, false, false, None, None)));
      if input.intentFault != NoFault || !input.validated {
        seen, alive := Refuse(intent, action, input, previous);
        return;
      }
      ghost var before := store.done;
      intent, alive := store.Save(intent, Intent(action));
      ghost var es := SaveEffects(IntentState(state, action, input, repair), Intent(action));
      ghost var submit := [Submit(action, input.operation)];
      ghost var rest := SaveEffects(PerformedState(intent, previous, input), PerformedEvent(action, input));
      ghost var done1 := store.done;
      if !alive {
        KilledEarly(before, done1, es, submit);
        KilledEarly(before, done1, es + submit, rest);
        return;
      }
      alive := store.Primitive(Submit(action, input.operation));
      ghost var done2 := store.done;
      WroteMore(before, done1, done2, es, submit, alive);
      if !alive {
        KilledEarly(before, done2, es + submit, rest);
        return;
      }
      var pending := intent.pending.value;
      if input.performRaised {
        pending := pending.(unknown := true);
        intent := intent.(pending := Some(pending));
        intent, alive := store.Save(intent, UnknownOutcome(action));
      } else {
        pending := pending.(submitted := true);
        if previous.Some? { pending := pending.(previous := Some(previous.value.operation)); }
        intent := intent.(pending := Some(pending));
        intent, alive := store.Save(intent, SubmittedEvent(action));
      }
      WroteMore(before, done2, store.done, es + submit, rest, alive);
      seen := Done;
    }

    /** The `except BaseException` clause of `_effect`: no write was attempted, so the intent is taken back. */
    method Refuse(intent: State, action: Action, input: Input, previous: Option<Pending>)
      returns (seen: Observation, alive: bool)
      requires store.Valid()
      modifies store, store.files
      ensures store.Valid() && (!alive ==> store.steps == 0) && seen == Raised
      ensures Wrote(old(store.done), store.done,
                    FaultyEffects(intent, action, input.intentFault)
                    + SaveEffects(Saved(intent).(pending := previous), ValidationRefused(action)), alive)
    {
      seen := Raised;
      ghost var before := store.done;
      var saved: State;
      saved, alive := store.FaultySave(intent, action, input.intentFault);
      ghost var es := FaultyEffects(intent, action, input.intentFault);
      ghost var rest := SaveEffects(Saved(intent).(pending := previous), ValidationRefused(action));
      ghost var middle := store.done;
      if !alive {
        KilledEarly(before, middle, es, rest);
        return;
      }
      saved := saved.(pending := previous);
      saved, alive := store.Save(saved, ValidationRefused(action));
      WroteMore(before, middle, store.done, es, rest, alive);
    }

    method Reconcile(state: State, input: Input) returns (seen: Observation, alive: bool)
      requires store.Valid() && state.pending.Some?
      modifies store, store.files
      ensures store.Valid() && (!alive ==> store.steps == 0)
      ensures Wrote(old(store.done), store.done, ReconcileOutcome(state, state.pending.value, input).effects, alive)
      ensures alive ==> seen == ReconcileOutcome(state, state.pending.value, input).observation
    {
      var pending := state.pending.value;
      var state' := state;
      alive := true;
      match input.remote {
        case Unreadable => seen := Raised;
        case Absent => seen := AwaitingRemote;
        case Running => seen := RemoteRunning;
        case Failed(failure) =>
          if pending.failure != Some(failure) {
            state' := state'.(pending := Some(pending.(failure := Some(failure))));
            state', alive := store.Save(state', RemoteFailed(pending.action));
          }
          seen := RemoteFailedSeen;
        case RetrySafe =>
          var action := pending.action;
          if !Repairable(action) || action !in state.authorizations || !input.bundleOk { return Raised, true; }
          seen, alive := Effect(state, action, input, true);
        case Observed(result) =>
          var action := pending.action;
          if !Acceptable(state, action, result) { return Raised, true; }
          state' := state'.(records := state'.records[action := result], phase := PhaseAfter(action));
          state' := state'.(pending := None);
          state', alive := store.Save(state', Reconciled(action));
          seen := Done;
      }
    }

    method Proceed(state: State, input: Input) returns (seen: Observation, alive: bool)
      requires store.Valid()
      requires state.pending.None? && state.phase == GithubReleased ==> store.files.lease == Some(store.sid)
      modifies store, store.files
      ensures store.Valid() && (!alive ==> store.steps == 0)
      ensures Wrote(old(store.done), store.done, ProceedOutcome(state, input).effects, alive)
      ensures alive ==> seen == ProceedOutcome(state, input).observation
    {
      alive := true;
      if state.pending.Some? {
        seen, alive := Reconcile(state, input);
        return;
      }
      var state' := state;
      if state.phase == GithubReleased {
        seen, alive := Complete(state, input);
        return;
      }
      if Next(state.phase).None? { return Raised, true; }
      var action := Next(state.phase).value;
      if action !in state.authorizations {
        return if state.phase == Prepared then AwaitingAuthorization else ScopeComplete, true;
      }
      if action == Qualify {
        state' := state'.(admitted := Some(input.admitted));
        if !input.admitted {
          state', alive := store.Save(state', PreparationBlocked);
          seen := Blocked;
          return;
        }
      } else if !input.bundleOk {
        return Raised, true;
      }
      seen, alive := Effect(state', action, input, false);
    }

    method Complete(state: State, input: Input) returns (seen: Observation, alive: bool)
      requires store.Valid() && store.files.lease == Some(store.sid)
      requires state.pending.None? && state.phase == GithubReleased
      modifies store, store.files
      ensures store.Valid() && (!alive ==> store.steps == 0)
      ensures Wrote(old(store.done), store.done, ProceedOutcome(state, input).effects, alive)
      ensures alive ==> seen == ProceedOutcome(state, input).observation
    {
      if !input.publicVerified { return Raised, true; }
      ghost var before := store.done;
      var state' := state.(publicVerified := true);
      state' := state'.(phase := Phase.Complete);
      ghost var es := SaveEffects(state', PublicVerified);
      state', alive := store.Save(state', PublicVerified);
      ghost var middle := store.done;
      seen := Done;
      if !alive {
        KilledEarly(before, middle, es, [ReleaseLease]);
        return;
      }
      alive := store.Release();
      WroteMore(before, middle, store.done, es, [ReleaseLease], alive);
    }

    /** `advance`, from the loaded state to whatever the process lived to do. */
    method Advance(input: Input) returns (seen: Observation, alive: bool)
      requires store.Valid() && store.done == []
      modifies store, store.files
      ensures store.Valid() && (!alive ==> store.steps == 0)
      ensures Wrote([], store.done, AdvanceOutcome(old(store.files.World()), store.sid, input).effects, alive)
      ensures alive ==> seen == AdvanceOutcome(old(store.files.World()), store.sid, input).observation
    {
      hide ClaimedOutcome;
      ghost var w := store.files.World();
      var loaded := store.Load();
      if loaded.None? { return Raised, true; }
      var state := loaded.value;
      if Finished(state.phase) {
        alive := store.Release();
        return Done, alive;
      }
      var refused: bool;
      refused, alive := store.Claim();
      if refused { return Raised, true; }
      ghost var claim, rest, middle := ClaimEffects(w), ClaimedOutcome(state, input).effects, store.done;
      if !alive {
        seen := Raised;
        KilledEarly([], middle, claim, rest);
        return;
      }
      seen, alive := AdvanceClaimed(state, input);
      WroteMore([], middle, store.done, claim, rest, alive);
    }

    method AdvanceClaimed(state: State, input: Input) returns (seen: Observation, alive: bool)
      requires store.Valid() && store.files.lease == Some(store.sid)
      modifies store, store.files
      ensures store.Valid() && (!alive ==> store.steps == 0)
      ensures Wrote(old(store.done), store.done, ClaimedOutcome(state, input).effects, alive)
      ensures alive ==> seen == ClaimedOutcome(state, input).observation
    {
      hide ProceedOutcome;
      if !input.sourceAtStart { return Raised, true; }
      var grants := state.authorizations + input.authorize;
      if grants != state.authorizations || input.preflight.Some? {
        if input.preflight.Some? && !(state.phase == Prepared && state.pending.None?) { return Raised, true; }
        var granted := state.(authorizations := grants);
        if input.preflight.Some? { granted := granted.(preflight := input.preflight); }
        ghost var before, save := store.done, SaveEffects(granted, AuthorizationUpdated);
        ghost var rest := ProceedOutcome(Saved(granted), input).effects;
        granted, alive := store.Save(granted, AuthorizationUpdated);
        ghost var middle := store.done;
        if !alive {
          seen := Raised;
          KilledEarly(before, middle, save, rest);
          return;
        }
        seen, alive := Proceed(granted, input);
        WroteMore(before, middle, store.done, save, rest, alive);
      } else {
        seen, alive := Proceed(state, input);
      }
    }

    method Initialize(candidate: string, version: string, authorize: set<Action>, preflight: Option<nat>,
        sourceOk: bool)
      returns (seen: Observation, alive: bool)
      requires store.Valid() && store.done == []
      modifies store, store.files
      ensures store.Valid() && (!alive ==> store.steps == 0)
      ensures var outcome := InitializeOutcome(
                old(store.files.World()), store.sid, candidate, version, authorize, preflight, sourceOk);
              Wrote([], store.done, outcome.effects, alive) && (alive ==> seen == outcome.observation)
    {
      ghost var w := store.files.World();
      var loaded := store.Load();
      if loaded.Some? {
        var state := loaded.value;
        if state.candidate != candidate { return Raised, true; }
        if Finished(state.phase) {
          alive := store.Release();
          return Done, alive;
        }
        var refused: bool;
        refused, alive := store.Claim();
        return if refused then Raised else Done, alive;
      }
      if Journal(store.files.World(), store.sid) != [] { return Raised, true; }
      if !sourceOk { return Raised, true; }
      var state := NewState(candidate, version, authorize, preflight);
      ghost var es := SaveEffects(state, Initialized);
      state, alive := store.Save(state, Initialized);
      ghost var middle := store.done;
      if !alive {
        seen := Raised;
        KilledEarly([], middle, es, ClaimEffects(w));
        return;
      }
      var refused: bool;
      refused, alive := store.Claim();
      WroteMore([], middle, store.done, es, if refused then [] else ClaimEffects(w), alive);
      assert es + [] == es;
      seen := if refused then Raised else Done;
    }

    method Supersede(reasoned: bool, shaOk: string -> bool) returns (seen: Observation, alive: bool)
      requires store.Valid() && store.done == []
      modifies store, store.files
      ensures store.Valid() && (!alive ==> store.steps == 0)
      ensures var outcome := SupersedeOutcome(old(store.files.World()), store.sid, reasoned, shaOk);
              Wrote([], store.done, outcome.effects, alive) && (alive ==> seen == outcome.observation)
    {
      ghost var w := store.files.World();
      if !reasoned { return Raised, true; }
      var loaded := store.Load();
      if loaded.None? { return Raised, true; }
      var state := loaded.value;
      if state.phase == Superseded {
        alive := store.Release();
        return Done, alive;
      }
      if !Supersedable(state, shaOk) { return Raised, true; }
      var retired := SupersededState(state);
      ghost var es := SaveEffects(retired, ExplicitlySuperseded);
      retired, alive := store.Save(retired, ExplicitlySuperseded);
      ghost var middle := store.done;
      if !alive {
        seen := Raised;
        KilledEarly([], middle, es, ReleaseEffects(w, store.sid));
        return;
      }
      alive := store.Release();
      WroteMore([], middle, store.done, es, ReleaseEffects(w, store.sid), alive);
      seen := Done;
    }
  }

  /** What a killed process has written is the effect list cut where it was killed. */
  lemma WroteIsCut(done: seq<Effect>, es: seq<Effect>, alive: bool, steps: nat, budget: nat)
    requires Wrote([], done, es, alive) && steps + |done| == budget && (!alive ==> steps == 0)
    ensures done == Cut(es, budget)
  {
  }

  /** One operation under the lock: a process, its store and its controller, killed after `call.steps` steps. */
  method Operate(files: Files, call: SessionRuns.Call) returns (seen: Observation)
    modifies files
    ensures files.World() == SessionRuns.Execute(old(files.World()), call)
  {
    ghost var w := files.World();
    var store := new Store(files, call.sid, call.steps);
    var controller := new Controller(store);
    var alive: bool;
    match call.request {
      case Initialize(candidate, version, authorize, preflight, sourceOk) =>
        seen, alive := controller.Initialize(candidate, version, authorize, preflight, sourceOk);
      case Advance(input) =>
        seen, alive := controller.Advance(input);
      case Supersede(reasoned, shaOk) =>
        seen, alive := controller.Supersede(reasoned, shaOk);
    }
    WroteIsCut(store.done, SessionRuns.Effects(w, call), alive, store.steps, call.steps);
  }

  /** Any number of processes one after another, each killed anywhere, keep the protocol's invariant. */
  method OperateAll(files: Files, calls: seq<SessionRuns.Call>)
    requires files.World() == SessionRuns.Run([]) && SessionRuns.DistinctOperations(calls)
    modifies files
    ensures files.World() == SessionRuns.Run(calls) && SessionProtocol.Inv(files.World())
  {
    hide SessionProtocol.Inv, SessionRuns.Execute;
    for n := 0 to |calls|
      invariant files.World() == SessionRuns.Run(calls[..n])
    {
      assert calls[..n + 1][..n] == calls[..n];
      var _ := Operate(files, calls[n]);
    }
    assert calls[..|calls|] == calls;
    SessionRuns.RunInv(calls);
  }
}
