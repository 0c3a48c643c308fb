/**
 The receipt protocol of `Coordinator` in qualification_automation.py.

 A receipt is a check run on the candidate; it is saved before the qualification workflow is
 dispatched.  As for release sessions, an operation is the list of remote writes it performs,
 and a crash keeps some prefix of that list.  The request id is an injective function of what is
 requested, so it is modelled as that value.
 */
module Coordinator {
  import opened Results
  import opened Sorting

  datatype Profile = Normal | PolicyShadow

  datatype Request = Request(sha: string, profile: Profile, generation: nat)

  /** `Closed` stands for qualified, activation_merged and superseded; `Proposed` for the two
      states of an activation proposal. */
  datatype Status = Pending | Unknown | Dispatched | Failed | BlockedEvidence | Proposed | Closed

  datatype Previous = Previous(run: Option<int>, request: Request)

  datatype Receipt = Receipt(request: Request, status: Status, run: Option<int>, previous: seq<Previous>)

  /** A workflow run; `title` is the request that its display title carries, if any, and `trusted`
      says that repository, branch, event and workflow path are the qualification's own. */
  datatype Run = Run(head: string, title: Option<Request>, trusted: bool, completed: bool)

  /** What happened, in order: a receipt was persisted as pending, the workflow was dispatched, a
      run was authenticated as completed for a request. */
  datatype Event = SavedPending(request: Request) | Sent(request: Request) | Witnessed(request: Request, run: int)

  datatype World = World(receipts: map<int, Receipt>, runs: map<int, Run>, log: seq<Event>)

  datatype Effect = Write(check: int, receipt: Receipt) | Send(request: Request) | Witness(request: Request, run: int)

  function Apply(w: World, e: Effect): World {
    match e
    case Write(check, receipt) =>
      w.(receipts := w.receipts[check := receipt],
         log := if receipt.status == Pending then w.log + [SavedPending(receipt.request)] else w.log)
    case Send(request) => w.(log := w.log + [Sent(request)])
    case Witness(request, run) => w.(log := w.log + [Witnessed(request, run)])
  }

  function ApplyAll(w: World, es: seq<Effect>): World
    decreases |es|
  {
    if es == [] then w else ApplyAll(Apply(w, es[0]), es[1..])
  }

  function Cut(es: seq<Effect>, steps: nat): seq<Effect> {
    if steps < |es| then es[..steps] else es
  }

  predicate SameKey(a: Request, b: Request) {
    a.sha == b.sha && a.profile == b.profile
  }

  function Earlier(r: Request): Request
    requires r.generation > 0
  {
    r.(generation := r.generation - 1)
  }

  // ----- Operations -----

  /** `receipts(sha)` restricted to a profile. */
  function Existing(w: World, sha: string, profile: Profile): set<int> {
    set check | check in w.receipts && SameKey(w.receipts[check].request, Request(sha, profile, 0))
  }

  predicate Retryable(status: Status) {
    status == Failed || status == BlockedEvidence
  }

  /** The last sixteen entries of a history. */
  function Recent(history: seq<Previous>): seq<Previous> {
    if |history| <= 16 then history else history[|history| - 16..]
  }

  function Renewed(prior: Receipt): Receipt {
    var r := prior.request;
    Receipt(r.(generation := r.generation + 1), Pending, None, Recent(prior.previous + [Previous(prior.run, r)]))
  }

  /** What `dispatch` decides to write first and where; nothing when it returns the prior receipt
      or finds several.  `unused` is the number that the remote gives to a new check run. */
  function Decision(w: World, sha: string, profile: Profile, retry: bool, unused: int): (first: Option<Effect>)
    ensures first.Some? ==> first.value.Write?
  {
    var existing := Existing(w, sha, profile);
    if |existing| > 1 then None
    else if existing == {} then Some(Write(unused, Receipt(Request(sha, profile, 0), Pending, None, [])))
    else
      var check := The(existing);
      if retry && Retryable(w.receipts[check].status) then Some(Write(check, Renewed(w.receipts[check]))) else None
  }

  /** What the remote answers to a dispatch: is main still the candidate, is the candidate pinned,
      was the receipt accepted, is main still the candidate, and the run id in the response. */
  datatype Answers = Answers(main: bool, pinned: bool, saved: bool, mainStill: bool, response: Option<int>)

  /** The receipt is saved; then, while main is still the candidate, the workflow is dispatched and
      its answer saved. */
  function SendEffects(check: int, receipt: Receipt, a: Answers): seq<Effect> {
    var first := Write(check, receipt);
    if !a.saved then [first]
    else if !a.mainStill then [first, Write(check, receipt.(status := Unknown))]
    else [first, Send(receipt.request), Write(check, Answered(receipt, a.response))]
  }

  function DispatchEffects(w: World, sha: string, profile: Profile, retry: bool, apply: bool, unused: int,
      a: Answers): seq<Effect>
  {
    match Decision(w, sha, profile, retry, unused)
    case None => []
    case Some(first) =>
      if !apply || !a.main || !a.pinned then [] else SendEffects(first.check, first.receipt, a)
  }

  function Answered(receipt: Receipt, response: Option<int>): Receipt {
    if response.Some? then receipt.(status := Dispatched, run := response) else receipt.(status := Unknown)
  }

  predicate Lost(status: Status) {
    status == Pending || status == Unknown
  }

  /** The listed runs of the candidate that carry a request in their title. */
  function Titled(w: World, visible: set<int>, request: Request): set<int> {
    set run | run in visible && run in w.runs && w.runs[run].head == request.sha && w.runs[run].title == Some(request)
  }

  function Adopted(receipt: Receipt, run: int): Receipt {
    receipt.(status := Dispatched, run := Some(run))
  }

  /** `recover_dispatch`: adopt the run when exactly one carries the request and it is trusted. */
  function RecoverEffects(w: World, check: int, visible: set<int>): seq<Effect>
    requires check in w.receipts
  {
    var receipt := w.receipts[check];
    var matched := Titled(w, visible, receipt.request);
    if |matched| != 1 then []
    else
      assert The(matched) in matched;
      if !w.runs[The(matched)].trusted then [] else [Write(check, Adopted(receipt, The(matched)))]
  }

  function OfHead(w: World, head: string): (checks: set<int>)
    ensures checks <= w.receipts.Keys
  {
    set check | check in w.receipts && w.receipts[check].request.sha == head
  }

  function WithRun(w: World, head: string, run: int): set<int> {
    set check | check in OfHead(w, head) && w.receipts[check].run == Some(run)
  }

  function LostFor(w: World, head: string, title: Option<Request>): set<int> {
    set check | check in OfHead(w, head) && Lost(w.receipts[check].status) && title == Some(w.receipts[check].request)
  }

  predicate Replaced(w: World, head: string, run: int) {
    exists check :: check in OfHead(w, head) && exists p :: p in w.receipts[check].previous && p.run == Some(run)
  }

  /** `find_request`: the receipt that a completed run belongs to, if there is one, and the write
      of a recovery on the way, which stays even when it adopts another run and the search fails. */
  function Find(w: World, run: int, visible: set<int>): (r: (Option<int>, seq<Effect>))
    requires run in w.runs
    ensures r.0.Some? ==> r.0.value in w.receipts
  {
    var head, title := w.runs[run].head, w.runs[run].title;
    var rows, lost := WithRun(w, head, run), LostFor(w, head, title);
    if Replaced(w, head, run) then (None, [])
    else if rows == {} then
      if |lost| != 1 then (None, [])
      else
        assert The(lost) in lost;
        var check := The(lost);
        var adopt := RecoverEffects(w, check, visible);
        (if adopt == [Write(check, Adopted(w.receipts[check], run))] then Some(check) else None, adopt)
    else if |rows| != 1 then (None, [])
    else
      assert The(rows) in rows;
      (if title == Some(w.receipts[The(rows)].request) then Some(The(rows)) else None, [])
  }

  /** The statuses that the evaluation of a completed run may save, one after the other. */
  predicate Verdicts(marks: seq<Status>) {
    forall m :: m in marks ==> m == Failed || m == BlockedEvidence || m == Proposed || m == Closed
  }

  function Marks(check: int, receipt: Receipt, marks: seq<Status>): (es: seq<Effect>)
    ensures |es| == |marks| && forall i :: 0 <= i < |es| ==> es[i] == Write(check, receipt.(status := marks[i]))
  {
    seq(|marks|, i requires 0 <= i < |marks| => Write(check, receipt.(status := marks[i])))
  }

  /** The run is evaluated on the receipt it was found for, unless that is closed. */
  function EvaluateEffects(check: int, found: Receipt, run: int, marks: seq<Status>): seq<Effect> {
    [Witness(found.request, run)] + if found.status == Closed then [] else Marks(check, found, marks)
  }

  /** The receipt as it stands after the search. */
  function FoundReceipt(w: World, check: int, run: int, adopt: seq<Effect>): Receipt
    requires check in w.receipts
  {
    if adopt == [] then w.receipts[check] else Adopted(w.receipts[check], run)
  }

  /** `reconcile` on an authenticated, completed qualification run. */
  function SettleEffects(w: World, run: int, visible: set<int>, marks: seq<Status>): seq<Effect>
    requires run in w.runs
  {
    var (check, adopt) := Find(w, run, visible);
    if check.None? then adopt
    else adopt + EvaluateEffects(check.value, FoundReceipt(w, check.value, run, adopt), run, marks)
  }

  // ----- Runs of the protocol -----

  datatype Command =
    | Dispatch(sha: string, profile: Profile, retry: bool, apply: bool, unused: int, answers: Answers)
    | Recover(check: int, visible: set<int>)
    | Settle(run: int, visible: set<int>, marks: seq<Status>)
    | Annotate(check: int, status: Status)
    | Elsewhere(runs: map<int, Run>)

  /** What the surroundings allow: new check runs get unused numbers, only lost dispatches are
      recovered, only completed runs are settled, only receipts with a recorded run are annotated
      as proposals, and runs never vanish or change their titles. */
  predicate Possible(w: World, c: Command) {
    match c
    case Dispatch(_, _, _, _, unused, _) => unused !in w.receipts
    case Recover(check, _) => check in w.receipts && Lost(w.receipts[check].status)
    case Settle(run, _, marks) => run in w.runs && w.runs[run].completed && Verdicts(marks)
    case Annotate(check, status) =>
        check in w.receipts && w.receipts[check].run.Some? && (status == Proposed || status == Closed)
    case Elsewhere(runs) => forall id :: id in w.runs ==> id in runs && runs[id].title == w.runs[id].title
  }

  function Effects(w: World, c: Command): seq<Effect>
    requires Possible(w, c)
  {
    match c
    case Dispatch(sha, profile, retry, apply, unused, answers) =>
        DispatchEffects(w, sha, profile, retry, apply, unused, answers)
    case Recover(check, visible) => RecoverEffects(w, check, visible)
    case Settle(run, visible, marks) => SettleEffects(w, run, visible, marks)
    case Annotate(check, status) => [Write(check, w.receipts[check].(status := status))]
    case Elsewhere(_) => []
  }

  /** One operation, killed after `steps` writes if it has more; impossible ones do nothing. */
  function Execute(w: World, c: Command, steps: nat): World {
    if !Possible(w, c) then w
    else if c.Elsewhere? then w.(runs := c.runs)
    else ApplyAll(w, Cut(Effects(w, c), steps))
  }

  function Operate(w: World, cs: seq<(Command, nat)>): World
    decreases |cs|
  {
    if cs == [] then w else Operate(Execute(w, cs[0].0, cs[0].1), cs[1..])
  }

  const START: World := World(map[], map[], [])
}
