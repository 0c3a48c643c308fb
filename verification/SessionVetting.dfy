/**
 Where things come from, over every run: each submission, acceptance, grant, record and phase of a
 session goes back to a call whose input accounts for it.
 */
module SessionVetting {
  import opened Results
  import opened Session
  import opened SessionProtocol
  import opened SessionRuns
  import opened SessionTheorems
  import opened SessionPrefix
  import opened SessionWindow
  import opened SessionLaws

  // ----- submissions

  lemma {:induction false} SubmitInSends(es: seq<Effect>, e: Effect)
    requires e in es && e.Submit?
    ensures e in Sends(es)
  {
    if es[0] != e {
      SubmitInSends(es[1..], e);
    }
  }

  lemma CallVetted(w: World, call: Call, e: Effect)
    requires e in Effects(w, call) && e.Submit?
    ensures call.request.Advance? && call.sid in w.states && Claimable(w, call.sid)
    ensures Vetted(w.states[call.sid], call.request.input, e.action) && e.operation == call.request.input.operation
  {
    hide AdvanceOutcome;
    match call.request {
      case Advance(input) =>
        CallSends(w, call.sid, input);
        SubmitInSends(AdvanceOutcome(w, call.sid, input).effects, e);
      case _ =>
    }
  }

  /**
   Every submission of every run goes back to one call of `advance` that drew its operation: the
   checkout was the candidate, the action was authorized and due, a qualification was admitted and
   anything else had its bundle checked, it was prepared and it was validated.
   */
  lemma {:induction false} SubmissionVetted(calls: seq<Call>, x: Submission) returns (k: nat)
    requires x in Run(calls).log
    ensures k < |calls| && calls[k].sid == x.session && calls[k].request.Advance?
    ensures x.session in Run(calls[..k]).states && Claimable(Run(calls[..k]), x.session)
    ensures Vetted(Run(calls[..k]).states[x.session], calls[k].request.input, x.action)
    ensures x.operation == calls[k].request.input.operation
  {
    hide Effects, Vetted;
    k := |calls| - 1;
    var init, call := calls[..k], calls[k];
    if x in Run(init).log {
      k := SubmissionVetted(init, x);
      assert init[..k] == calls[..k];
    } else {
      var es := Cut(Effects(Run(init), call), call.steps);
      LogGrows(Run(init), call.sid, es);
      CallVetted(Run(init), call, Submit(x.action, x.operation));
    }
  }

  /** And a vetted call that is not killed does submit. */
  lemma VettedIsSubmitted(calls: seq<Call>, k: nat, a: Action)
    requires k < |calls| && calls[k].request.Advance? && calls[k].steps >= LONGEST
    requires var w := Run(calls[..k]);
             && calls[k].sid in w.states && Claimable(w, calls[k].sid)
             && Vetted(w.states[calls[k].sid], calls[k].request.input, a)
    ensures Submission(calls[k].sid, a, calls[k].request.input.operation) in Run(calls[..k + 1]).log
  {
    hide Execute, Leaves;
    NextRun(calls, k);
    AdvanceLaw(Run(calls[..k]), calls[k].sid, calls[k].request.input, calls[k].steps);
  }

  // ----- states

  /** What a supersession finds and leaves. */
  ghost predicate Superseding(s: State, shaOk: string -> bool, t: State) {
    && s.phase in {Prepared, Qualified, DryRunVerified, Tagged}
    && (s.pending.Some? ==> s.phase != Tagged && s.pending.value.action in {Qualify, DryRun})
    && (s.phase == Tagged ==> TagKept(s, shaOk, t))
    && t.revision > s.revision
    && t.(revision := s.revision, tagRetained := s.tagRetained)
       == s.(phase := Superseded, supersededFrom := Some(s.phase))
    && (s.phase != Tagged ==> t.tagRetained == s.tagRetained)
  }

  /** The recorded tag is annotated, names this version and peels to the candidate; it is retained. */
  ghost predicate TagKept(s: State, shaOk: string -> bool, t: State) {
    && Tag in s.records && s.records[Tag].verified && s.records[Tag].candidate == s.candidate
    && Publish !in s.records
    && var refs, name := s.records[Tag].refs, "refs/tags/v" + s.version;
       && refs.Keys == {name, name + "^{}"} && shaOk(refs[name]) && refs[name + "^{}"] == s.candidate
       && t.tagRetained == Some(Retained(name, refs[name], s.candidate))
  }

  lemma SupersedeWrites(w: World, sid: SessionId, reasoned: bool, shaOk: string -> bool, t: State)
    requires Replace(t) in SupersedeOutcome(w, sid, reasoned, shaOk).effects
    ensures reasoned && sid in w.states && Superseding(w.states[sid], shaOk, t)
  {
    hide EntryOf;
  }

  /** The only ways in which a call changes a session that exists. */
  ghost predicate Changes(s: State, call: Call, t: State) {
    match call.request
    case Advance(input) => Wrote(s, input, t)
    case Supersede(reasoned, shaOk) => reasoned && Superseding(s, shaOk, t)
    case _ => false
  }

  lemma CallChanges(w: World, call: Call, t: State)
    requires call.sid in w.states && Replace(t) in Effects(w, call)
    ensures Changes(w.states[call.sid], call, t)
  {
    hide AdvanceOutcome, SupersedeOutcome, Wrote, Superseding;
    match call.request {
      case Advance(input) => CallWrites(w, call.sid, input);
      case Supersede(reasoned, shaOk) => SupersedeWrites(w, call.sid, reasoned, shaOk, t);
      case _ =>
    }
  }

  /** One step of a run leaves a session as it was, or changes it in one of these ways. */
  lemma SessionStep(calls: seq<Call>, k: nat, sid: SessionId)
    requires k < |calls| && sid in Run(calls[..k]).states
    ensures sid in Run(calls[..k + 1]).states
    ensures var s, t := Run(calls[..k]).states[sid], Run(calls[..k + 1]).states[sid];
            t == s || (calls[k].sid == sid && Changes(s, calls[k], t))
  {
    hide Effects, Run, Changes;
    NextRun(calls, k);
    var w, call := Run(calls[..k]), calls[k];
    var es := Cut(Effects(w, call), call.steps);
    if call.sid == sid {
      FinalState(w, sid, es);
      var t := Run(calls[..k + 1]).states[sid];
      if t != w.states[sid] {
        assert Replace(t) in es && Replace(t) in Effects(w, call);
        CallChanges(w, call, t);
      }
    } else {
      OtherState(w, call.sid, es, sid);
    }
  }

  /** What a new session starts with. */
  predicate Begins(call: Call, t: State) {
    && call.request.Initialize? && call.request.sourceOk
    && var r := call.request;
       t == State(r.candidate, r.version, Prepared, r.authorize, r.preflight, None, None, 1, map[], None, None, false)
  }

  lemma SessionStart(calls: seq<Call>, k: nat, sid: SessionId)
    requires k < |calls| && sid !in Run(calls[..k]).states && sid in Run(calls[..k + 1]).states
    ensures calls[k].sid == sid && Begins(calls[k], Run(calls[..k + 1]).states[sid])
  {
    hide Effects, Run;
    NextRun(calls, k);
    var w, call := Run(calls[..k]), calls[k];
    var es := Cut(Effects(w, call), call.steps);
    if call.sid == sid {
      FinalState(w, sid, es);
      var t := Run(calls[..k + 1]).states[sid];
      assert Replace(t) in es && Replace(t) in Effects(w, call);
      StartWrites(w, call, t);
    } else {
      OtherState(w, call.sid, es, sid);
    }
  }

  lemma StartWrites(w: World, call: Call, t: State)
    requires call.sid !in w.states && Replace(t) in Effects(w, call)
    ensures Begins(call, t)
  {
    hide EntryOf;
  }

  lemma NothingYet(calls: seq<Call>, sid: SessionId)
    ensures sid !in Run(calls[..0]).states
  {
  }

  // ----- provenance

  /** A session comes from one initialisation, on a checkout of its candidate, and keeps its identity. */
  lemma {:induction false} SessionBegun(calls: seq<Call>, n: nat, sid: SessionId) returns (k: nat)
    requires n <= |calls| && sid in Run(calls[..n]).states
    ensures k < n && calls[k].sid == sid && calls[k].request.Initialize? && calls[k].request.sourceOk
    ensures calls[k].request.candidate == Run(calls[..n]).states[sid].candidate
    ensures calls[k].request.version == Run(calls[..n]).states[sid].version
    decreases n
  {
    hide Run, Wrote, Superseding;
    NothingYet(calls, sid);
    k := n - 1;
    if sid in Run(calls[..k]).states {
      SessionStep(calls, k, sid);
      SameIdentity(Run(calls[..k]).states[sid], calls[k], Run(calls[..n]).states[sid]);
      k := SessionBegun(calls, k, sid);
    } else {
      SessionStart(calls, k, sid);
    }
  }

  lemma SameIdentity(s: State, call: Call, t: State)
    requires t == s || Changes(s, call, t)
    ensures t.candidate == s.candidate && t.version == s.version
  {
  }

  predicate Grants(call: Call, a: Action) {
    match call.request
    case Initialize(_, _, authorize, _, _) => a in authorize
    case Advance(input) => a in input.authorize
    case _ => false
  }

  /** Every authorization on disk was given by a call of its session. */
  lemma {:induction false} GrantsGiven(calls: seq<Call>, n: nat, sid: SessionId, a: Action) returns (k: nat)
    requires n <= |calls| && sid in Run(calls[..n]).states && a in Run(calls[..n]).states[sid].authorizations
    ensures k < n && calls[k].sid == sid && Grants(calls[k], a)
    decreases n
  {
    hide Run, Wrote, Superseding;
    NothingYet(calls, sid);
    k := n - 1;
    if sid in Run(calls[..k]).states {
      SessionStep(calls, k, sid);
      if a in Run(calls[..k]).states[sid].authorizations {
        k := GrantsGiven(calls, k, sid, a);
      } else {
        NewGrant(Run(calls[..k]).states[sid], calls[k], Run(calls[..n]).states[sid], a);
      }
    } else {
      SessionStart(calls, k, sid);
    }
  }

  lemma NewGrant(s: State, call: Call, t: State, a: Action)
    requires Changes(s, call, t) && a in t.authorizations && a !in s.authorizations
    ensures Grants(call, a)
  {
  }

  /** A session is complete only by a call that found the release published and verified it publicly. */
  lemma {:induction false} CompletionVerified(calls: seq<Call>, n: nat, sid: SessionId) returns (k: nat)
    requires n <= |calls| && sid in Run(calls[..n]).states && Run(calls[..n]).states[sid].phase == Complete
    ensures k < n && calls[k].sid == sid && calls[k].request.Advance?
    ensures sid in Run(calls[..k]).states
    ensures var s, input := Run(calls[..k]).states[sid], calls[k].request.input;
            s.phase == GithubReleased && s.pending.None? && input.sourceAtStart && input.publicVerified
    decreases n
  {
    hide Run, Wrote, Superseding;
    NothingYet(calls, sid);
    k := n - 1;
    if sid in Run(calls[..k]).states {
      SessionStep(calls, k, sid);
      if Run(calls[..k]).states[sid].phase == Complete {
        k := CompletionVerified(calls, k, sid);
      } else {
        NewEnd(Run(calls[..k]).states[sid], calls[k], Run(calls[..n]).states[sid]);
      }
    } else {
      SessionStart(calls, k, sid);
    }
  }

  lemma NewEnd(s: State, call: Call, t: State)
    requires Changes(s, call, t) && t.phase == Complete && s.phase != Complete
    ensures call.request.Advance? && call.request.input.sourceAtStart && call.request.input.publicVerified
    ensures s.phase == GithubReleased && s.pending.None?
  {
  }

  /** A session is superseded only by a call with a reason, from a phase before publication. */
  lemma {:induction false} SupersessionReasoned(calls: seq<Call>, n: nat, sid: SessionId) returns (k: nat)
    requires n <= |calls| && sid in Run(calls[..n]).states && Run(calls[..n]).states[sid].phase == Superseded
    ensures k < n && calls[k].sid == sid && calls[k].request.Supersede? && calls[k].request.reasoned
    ensures sid in Run(calls[..k]).states
    ensures exists t :: Superseding(Run(calls[..k]).states[sid], calls[k].request.shaOk, t)
    decreases n
  {
    hide Run, Wrote, Superseding;
    NothingYet(calls, sid);
    k := n - 1;
    if sid in Run(calls[..k]).states {
      SessionStep(calls, k, sid);
      if Run(calls[..k]).states[sid].phase == Superseded {
        k := SupersessionReasoned(calls, k, sid);
      } else {
        NewSupersession(Run(calls[..k]).states[sid], calls[k], Run(calls[..n]).states[sid]);
      }
    } else {
      SessionStart(calls, k, sid);
    }
  }

  lemma NewSupersession(s: State, call: Call, t: State)
    requires Changes(s, call, t) && t.phase == Superseded && s.phase != Superseded
    ensures call.request.Supersede? && call.request.reasoned && Superseding(s, call.request.shaOk, t)
  {
    hide Superseding;
  }

  /** An acceptance records what the remote showed, verified for the session's own candidate. */
  lemma AcceptanceConfirmed(calls: seq<Call>, k: nat, sid: SessionId, a: Action)
    requires DistinctOperations(calls) && k < |calls| && AcceptedAt(calls, k, sid, a)
    ensures calls[k].sid == sid && calls[k].request.Advance?
    ensures sid in Run(calls[..k]).states && sid in Run(calls[..k + 1]).states
    ensures var s, t, input := Run(calls[..k]).states[sid], Run(calls[..k + 1]).states[sid], calls[k].request.input;
            && s.pending.Some? && s.pending.value.action == a && Confirmed(s, input) && input.sourceAtStart
            && a in t.records && t.records[a] == input.remote.result
  {
    hide Run, Superseding, WritesPending;
    AcceptedWasHeld(calls, k, sid, a);
    SessionStep(calls, k, sid);
    SupersedingRank(Run(calls[..k]).states[sid], calls[k], Run(calls[..k + 1]).states[sid]);
  }

  lemma SupersedingRank(s: State, call: Call, t: State)
    requires t == s || Changes(s, call, t)
    ensures call.request.Supersede? ==> PhaseRank(BasePhase(t)) == PhaseRank(BasePhase(s))
  {
  }

  /** Two states of a session differ only under a greater revision. */
  lemma {:induction false} RevisionGrows(calls: seq<Call>, m: nat, n: nat, sid: SessionId)
    requires m <= n <= |calls| && sid in Run(calls[..m]).states
    ensures sid in Run(calls[..n]).states
    ensures var s, t := Run(calls[..m]).states[sid], Run(calls[..n]).states[sid];
            s.revision <= t.revision && (s != t ==> s.revision < t.revision)
    decreases n
  {
    hide Run;
    if m < n {
      RevisionGrows(calls, m, n - 1, sid);
      SessionStep(calls, n - 1, sid);
    }
  }

  // ----- records

  /** The records are those of the accepted actions, each verified for this candidate. */
  ghost predicate RecordsSound(s: State) {
    && (forall a :: a in s.records <==> ActionRank(a) < PhaseRank(BasePhase(s)))
    && (forall a :: a in s.records ==> s.records[a].verified && s.records[a].candidate == s.candidate)
    && (Qualify in s.records ==> s.records[Qualify].version == s.version)
  }

  lemma {:induction false} AlwaysSound(calls: seq<Call>, n: nat, sid: SessionId)
    requires DistinctOperations(calls) && n <= |calls| && sid in Run(calls[..n]).states
    ensures RecordsSound(Run(calls[..n]).states[sid])
    decreases n
  {
    hide Run, Changes, RecordsSound;
    NothingYet(calls, sid);
    if sid in Run(calls[..n - 1]).states {
      AlwaysSound(calls, n - 1, sid);
      SessionStep(calls, n - 1, sid);
      RunInv(calls[..n - 1]);
      var w, t := Run(calls[..n - 1]), Run(calls[..n]).states[sid];
      if t != w.states[sid] {
        StaysSound(w, sid, calls[n - 1], t);
      }
    } else {
      SessionStart(calls, n - 1, sid);
      StartsSound(calls[n - 1], Run(calls[..n]).states[sid]);
    }
  }

  lemma StartsSound(call: Call, t: State)
    requires Begins(call, t)
    ensures RecordsSound(t)
  {
  }

  lemma StaysSound(w: World, sid: SessionId, call: Call, t: State)
    requires Inv(w) && sid in w.states && RecordsSound(w.states[sid]) && Changes(w.states[sid], call, t)
    ensures RecordsSound(t)
  {
    var s := w.states[sid];
    if Unfinished(w, sid) {
      PendingIsNext(w, sid);
      if s.pending.Some? { NextRank(s.phase, s.pending.value.action); }
    }
  }
}
