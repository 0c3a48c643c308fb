/** The retry loop `run` of dependency_audit.py and the gate `result_error`. */
module AuditRun {
  import opened Results
  import opened Sorting
  import opened Audit

  datatype Category = Completed | Transient | Permanent | Passed | Vulnerabilities | Incomplete

  /** What a worker writes about itself; `identified` covers the schema version and the scanner,
      `typed` the field types. */
  datatype Outcome = Outcome(
    identified: bool, typed: bool, inventory: Inventory, category: Category, retryable: bool, retryAfter: real,
    failed: bool, report: Option<Report>, findingsSeen: nat)

  /** The files of one attempt's directory; `others` says that there are more than these three. */
  datatype Files = Files(report: Option<Report>, outcome: Option<Outcome>, log: Option<string>, others: bool)

  datatype Attempt = Attempt(
    number: nat, inventory: Inventory, returncode: Option<int>, category: Category, retryable: bool,
    retryAfter: real, failed: bool, findingsSeen: nat, files: Files)

  datatype Record = Record(status: Category, failed: bool, inventory: Option<Inventory>, attempts: seq<Attempt>,
      report: Option<Report>)

  /** The evidence directory: the captured inventory, the attempts' directories, the report. */
  datatype Evidence = Evidence(inventory: Option<Inventory>, attempts: seq<Files>, report: Option<Report>)

  /** The surroundings of one attempt: the clock when it starts, the worker process (`None` when it
      times out or cannot start) with the files it leaves, the clock when the process has ended or
      was stopped, the inventory captured again after it, and the clock when the backoff is
      computed. */
  datatype Step = Step(
    started: real, returncode: Option<int>, files: Files, ended: real, recaptured: Option<Inventory>, checked: real)

  // ----- One attempt -----

  predicate ValidOutcome(files: Files, inventory: Inventory) {
    && files.outcome.Some? && files.report.Some?
    && var o := files.outcome.value;
       o.identified && o.typed && o.inventory == inventory && (o.retryable ==> o.category == Transient)
       && 0.0 <= o.retryAfter <= 60.0 && o.report == files.report
  }

  /** The worker ran before the deadline and left consistent evidence. */
  predicate Evidenced(began: real, inventory: Inventory, step: Step) {
    DEADLINE - (step.started - began) > 0.0 && step.returncode.Some? && ValidOutcome(step.files, inventory)
  }

  /** It finished an audit, and the audit covers the unchanged inventory. */
  predicate Finished(inventory: Inventory, step: Step)
    requires ValidOutcome(step.files, inventory)
  {
    && step.returncode == Some(0) && step.files.outcome.value.category == Completed && !step.files.outcome.value.failed
    && Covers(step.files.report.value, inventory)
    && step.recaptured == Some(inventory)
  }

  /** It says itself that it did not finish. */
  predicate Unfinished(inventory: Inventory, step: Step)
    requires ValidOutcome(step.files, inventory)
  {
    step.returncode == Some(1) && step.files.outcome.value.category != Completed
  }

  /** The whole record of an attempt, by the three ways it can end. */
  predicate Judged(a: Attempt, number: nat, began: real, inventory: Inventory, step: Step) {
    var evidenced := Evidenced(began, inventory, step);
    && a.number == number && a.inventory == inventory && a.files == step.files
    && a.returncode == (if DEADLINE - (step.started - began) > 0.0 then step.returncode else None)
    && a.findingsSeen == (if evidenced then step.files.outcome.value.findingsSeen else 0)
    && a.retryAfter == (if evidenced then step.files.outcome.value.retryAfter else 0.0)
    && if evidenced && Finished(inventory, step) then
         && !a.retryable && !a.failed
         && a.category == if Findings(step.files.report.value.rows) > 0 then Vulnerabilities else Passed
       else if evidenced && Unfinished(inventory, step) then
         var o := step.files.outcome.value;
         && a.category == o.category && a.failed == o.failed
         && a.retryable == (o.retryable && o.findingsSeen == 0)
       else
         a.category == Incomplete && !a.retryable && a.failed
  }

  method Try(number: nat, began: real, inventory: Inventory, step: Step)
    returns (attempt: Attempt, report: Option<Report>)
    ensures Judged(attempt, number, began, inventory, step)
    ensures report == if Evidenced(began, inventory, step) && Finished(inventory, step) then step.files.report else None
  {
    hide Covers, Findings;
    attempt := Attempt(number, inventory, None, Incomplete, false, 0.0, false, 0, step.files);
    report := None;
    var remaining := DEADLINE - (step.started - began);
    if remaining <= 0.0 {
      return attempt.(failed := true), None;
    }
    attempt := attempt.(returncode := step.returncode);
    if step.returncode.None? || !ValidOutcome(step.files, inventory) {
      return attempt.(failed := true), None;
    }
    var outcome := step.files.outcome.value;
    attempt := attempt.(category := outcome.category, retryable := outcome.retryable, retryAfter := outcome.retryAfter,
      failed := outcome.failed, findingsSeen := outcome.findingsSeen);
    if attempt.findingsSeen > 0 {
      attempt := attempt.(retryable := false);
    }
    if step.returncode == Some(0) && outcome.category == Completed && !outcome.failed {
      var findings := ValidateReport(step.files.report.value, inventory);
      if findings.None? || step.recaptured != Some(inventory) {
        return attempt.(category := Incomplete, retryable := false, failed := true), None;
      }
      attempt := attempt.(category := if findings.value > 0 then Vulnerabilities else Passed, retryable := false);
      report := step.files.report;
    } else if step.returncode != Some(1) || outcome.category == Completed {
      attempt := attempt.(category := Incomplete, retryable := false, failed := true);
    }
  }

  // ----- The loop -----

  function Backoff(number: nat): real {
    if number == 1 then 5.0 else 15.0
  }

  function Delay(attempt: Attempt): real {
    if Backoff(attempt.number) < attempt.retryAfter then attempt.retryAfter else Backoff(attempt.number)
  }

  predicate Decisive(began: real, inventory: Inventory, step: Step) {
    Evidenced(began, inventory, step) && Finished(inventory, step)
  }

  /** The record is about these attempts, in order, and their directories are on disk. */
  predicate Attempted(attempts: seq<Attempt>, directories: seq<Files>, began: real, inventory: Inventory,
      steps: seq<Step>)
    requires |attempts| <= |steps|
  {
    && |directories| == |attempts|
    && forall k :: 0 <= k < |attempts| ==>
         Judged(attempts[k], k + 1, began, inventory, steps[k]) && directories[k] == steps[k].files
  }

  /** Attempt k was repeated: it could be, and its backoff ended before the deadline. */
  predicate Repeated(attempts: seq<Attempt>, sleeps: seq<real>, began: real, steps: seq<Step>)
    requires |attempts| <= |steps|
  {
    forall k :: 0 <= k < |sleeps| && k < |attempts| ==>
      attempts[k].retryable && sleeps[k] == Delay(attempts[k]) && steps[k].checked - began + sleeps[k] < DEADLINE
  }

  /** No further attempt was possible after the last one. */
  predicate Stopped(last: Attempt, began: real, inventory: Inventory, step: Step) {
    Decisive(began, inventory, step) || !last.retryable || last.number == 3
        || step.checked - began + Delay(last) >= DEADLINE
  }

  predicate Concluded(record: Record, evidence: Evidence, last: Attempt, began: real, inventory: Inventory,
      step: Step)
  {
    var decisive := Decisive(began, inventory, step);
    && record.status == (if decisive then last.category else Incomplete)
    && record.failed == !(decisive && last.category == Passed)
    && record.report == evidence.report == if decisive then step.files.report else None
  }

  /** Everything `run` returns and leaves on disk. */
  predicate Recorded(record: Record, evidence: Evidence, sleeps: seq<real>, began: real, captured: Option<Inventory>,
      steps: seq<Step>)
    requires |steps| >= 3
  {
    var n := |record.attempts|;
    if captured.None? || !Auditable(captured.value) then
      record == Record(Incomplete, true, None, [], None) && evidence == Evidence(None, [], None) && sleeps == []
    else
      && 1 <= n <= 3 && |sleeps| == n - 1
      && record.inventory == captured == evidence.inventory
      && Attempted(record.attempts, evidence.attempts, began, captured.value, steps)
      && Repeated(record.attempts, sleeps, began, steps)
      && Stopped(record.attempts[n - 1], began, captured.value, steps[n - 1])
      && Concluded(record, evidence, record.attempts[n - 1], began, captured.value, steps[n - 1])
  }

  method Run(began: real, captured: Option<Inventory>, steps: seq<Step>)
    returns (record: Record, evidence: Evidence, sleeps: seq<real>)
    requires |steps| >= 3
    ensures Recorded(record, evidence, sleeps, began, captured, steps)
  {
    hide Judged, Evidenced, Finished, Auditable, Delay;
    record, evidence, sleeps := Record(Incomplete, false, None, [], None), Evidence(None, [], None), [];
    if captured.None? {
      return record.(failed := true), evidence, [];
    }
    var inventory := captured.value;
    var scope := Scope(inventory);
    if scope.None? {
      return record.(failed := true), evidence, [];
    }
    record := record.(inventory := captured);
    evidence := evidence.(inventory := captured);
    var number := 1;
    while true
      invariant 1 <= number <= 3 && |record.attempts| == number - 1 == |sleeps|
      invariant record.inventory == captured == evidence.inventory
      invariant record.status == Incomplete && record.report == None == evidence.report
      invariant Attempted(record.attempts, evidence.attempts, began, inventory, steps)
      invariant Repeated(record.attempts, sleeps, began, steps)
      decreases 3 - number
    {
      var step := steps[number - 1];
      var attempt, report := Try(number, began, inventory, step);
      ghost var before, sofar := record.attempts, sleeps;
      record := record.(attempts := record.attempts + [attempt]);
      evidence := evidence.(attempts := evidence.attempts + [step.files]);
      Tried(attempt, number, began, inventory, step);
      assert Repeated(record.attempts, sleeps, began, steps) by {
        assert forall k :: 0 <= k < |before| ==> record.attempts[k] == before[k];
      }
      if report.Some? {
        evidence := evidence.(report := report);
        record := record.(report := report, status := attempt.category, failed := attempt.category == Vulnerabilities);
        return;
      }
      record := record.(failed := true);
      if !attempt.retryable || number == 3 {
        return;
      }
      var delay := Delay(attempt);
      if step.checked - began + delay >= DEADLINE {
        return;
      }
      sleeps := sleeps + [delay];
      number := number + 1;
    }
  }

  lemma Tried(a: Attempt, number: nat, began: real, inventory: Inventory, step: Step)
    requires Judged(a, number, began, inventory, step)
    ensures a.number == number
    ensures Decisive(began, inventory, step) ==>
              step.files.report.Some? && (a.category == Passed || a.category == Vulnerabilities)
  {
  }

  // ----- The gate -----

  /** The recorded files are the three expected ones, and the directory still holds them. */
  predicate Kept(recorded: Files, disk: Files) {
    && recorded.report.Some? && recorded.outcome.Some? && recorded.log.Some? && !recorded.others
    && disk.report == recorded.report && disk.outcome == recorded.outcome && disk.log == recorded.log
  }

  predicate CleanFinish(a: Attempt, o: Outcome) {
    a.returncode == Some(0) && o.category == Completed && !o.failed && o.findingsSeen == 0
  }

  predicate CleanRetry(a: Attempt, o: Outcome) {
    a.returncode == Some(1) && o.category == Transient && o.retryable && o.findingsSeen == 0
  }

  predicate GateAttempt(a: Attempt, number: nat, final: bool, inventory: Inventory, disk: Files) {
    && a.number == number && a.inventory == inventory && Kept(a.files, disk)
    && var o := disk.outcome.value;
       o.inventory == inventory && o.identified && o.report == a.files.report
       && if final then CleanFinish(a, o) else CleanRetry(a, o)
  }

  predicate Gated(record: Record, evidence: Evidence, inventory: Inventory) {
    var n := |record.attempts|;
    && 1 <= n <= 3 && record.attempts[n - 1].category == Passed
    && |evidence.attempts| >= n
    && forall k :: 0 <= k < n ==> GateAttempt(record.attempts[k], k + 1, k == n - 1, inventory, evidence.attempts[k])
  }

  /** What it takes to be accepted. */
  predicate Accepted(record: Record, evidence: Evidence, returncode: Option<int>) {
    && record.status == Passed && returncode == Some(0) && !record.failed
    && evidence.inventory.Some? && record.inventory == evidence.inventory
    && Gated(record, evidence, evidence.inventory.value)
    && evidence.report.Some? && record.report == evidence.report
    && record.attempts[|record.attempts| - 1].files.report == evidence.report
    && Covers(evidence.report.value, evidence.inventory.value) && Findings(evidence.report.value.rows) == 0
  }

  method ResultError(record: Record, evidence: Evidence, returncode: Option<int>) returns (refused: bool)
    ensures refused <==> !Accepted(record, evidence, returncode)
  {
    hide Covers, Findings, GateAttempt;
    if record.status != Passed || returncode != Some(0) || record.failed {
      return true;
    }
    if evidence.inventory.None? || record.inventory != evidence.inventory {
      return true;
    }
    var inventory := evidence.inventory.value;
    var attempts := record.attempts;
    if !(1 <= |attempts| <= 3) || attempts[|attempts| - 1].category != Passed {
      return true;
    }
    for number := 1 to |attempts| + 1
      invariant number - 1 <= |evidence.attempts|
      invariant forall k :: 0 <= k < number - 1 ==>
                  GateAttempt(attempts[k], k + 1, k == |attempts| - 1, inventory, evidence.attempts[k])
    {
      if number > |evidence.attempts| {
        return true;
      }
      if !GateAttempt(attempts[number - 1], number, number == |attempts|, inventory, evidence.attempts[number - 1]) {
        return true;
      }
    }
    if evidence.report.None? || record.report != evidence.report
        || attempts[|attempts| - 1].files.report != evidence.report {
      return true;
    }
    var findings := ValidateReport(evidence.report.value, inventory);
    refused := findings != Some(0);
  }

  // ----- Producer and gate -----

  /** The worker's own count for the last attempt, and no stray file in any directory. */
  predicate CleanEvidence(evidence: Evidence) {
    && (forall k :: 0 <= k < |evidence.attempts| ==> !evidence.attempts[k].others && evidence.attempts[k].log.Some?)
    && evidence.attempts != []
    && var o := evidence.attempts[|evidence.attempts| - 1].outcome; o.Some? && o.value.findingsSeen == 0
  }

  /**
   A run that passed is accepted by the gate exactly when the last worker counted no findings
   itself (its count is not compared with its report before) and the workers left nothing but
   their three files.
   */
  lemma PassedAccepted(record: Record, evidence: Evidence, sleeps: seq<real>, began: real, captured: Option<Inventory>,
      steps: seq<Step>)
    requires |steps| >= 3 && Recorded(record, evidence, sleeps, began, captured, steps) && record.status == Passed
    ensures Accepted(record, evidence, Some(0)) <==> CleanEvidence(evidence)
  {
  }

  // ----- A run that passed and is refused -----

  const VERIFIED := Exclusion(OWNED, "1.0", false, "1.0", true)

  /** The scanner and the candidate, nothing else. */
  const SMALL := Inventory(true, [Package(SCANNER, PINNED, PINNED), Package(OWNED, "1.0", "1.0")], VERIFIED)

  const CLEAN := Report(true, [Row(SCANNER, PINNED, false, true, 0)])

  function WorkerFiles(seen: nat, extra: bool): Files {
    Files(
      Some(CLEAN), Some(Outcome(true, true, SMALL, Completed, false, 0.0, false, Some(CLEAN), seen)), Some(""), extra)
  }

  function OneStep(seen: nat, extra: bool): Step {
    Step(1.0, Some(0), WorkerFiles(seen, extra), 2.0, Some(SMALL), 3.0)
  }

  function OneAttempt(seen: nat, extra: bool): Attempt {
    Attempt(1, SMALL, Some(0), Passed, false, 0.0, false, seen, WorkerFiles(seen, extra))
  }

  predicate Letters(s: string) {
    s == "" || (Alphanumeric(s[0]) && Letters(s[1..]))
  }

  lemma {:induction false} LettersThroughout(s: string)
    requires Letters(s)
    ensures forall i :: 0 <= i < |s| ==> Alphanumeric(s[i])
  {
    if s != "" {
      LettersThroughout(s[1..]);
      forall i | 0 <= i < |s| ensures Alphanumeric(s[i]) {
        assert i > 0 ==> s[i] == s[1..][i - 1];
      }
    }
  }

  lemma Hyphenated(name: string, word: string)
    requires Normalized(name) && word != "" && Letters(word)
    ensures Normalized(name + "-" + word)
  {
    hide Alphanumeric;
    LettersThroughout(word);
    HyphenIsNot();
    var s := name + "-" + word;
    forall i: nat | i < |s| ensures PlainAt(s, i) {
      if i < |name| {
        assert s[i] == name[i] && (i > 0 ==> s[i - 1] == name[i - 1]) && PlainAt(name, i);
      } else if i == |name| {
        assert s[i - 1] == name[|name| - 1];
      } else {
        assert s[i] == word[i - |name| - 1];
      }
    }
    assert s[0] == name[0] && s[|s| - 1] == word[|word| - 1];
  }

  lemma OneWord(word: string)
    requires word != "" && Letters(word)
    ensures Normalized(word)
  {
    LettersThroughout(word);
  }

  lemma HyphenIsNot()
    ensures !Alphanumeric('-')
  {
  }

  lemma NamesAreNormalized()
    ensures Normalized(SCANNER) && Normalized(OWNED)
  {
    hide Normalized;
    OneWord("pip");
    Hyphenated("pip", "audit");
    assert "pip" + "-" + "audit" == SCANNER;
    OneWord("agent");
    Hyphenated("agent", "wiki");
    assert "agent" + "-" + "wiki" == "agent-wiki";
    Hyphenated("agent-wiki", "cli");
    assert "agent-wiki" + "-" + "cli" == OWNED;
  }

  lemma SmallIsAuditable()
    ensures Auditable(SMALL) && Covers(CLEAN, SMALL) && Findings(CLEAN.rows) == 0
  {
    var scanner, owned := SMALL.packages[0], SMALL.packages[1];
    assert scanner in SMALL.packages && owned in SMALL.packages;
    NamesAreNormalized();
    assert ThirdParty(SMALL, SCANNER, PINNED);
    assert RowNames(CLEAN.rows) == [SCANNER];
    assert CLEAN.rows[..0] == [];
  }

  /** The report is clean, so the run passes; but its worker counted a finding, or left a fourth
      file, and the gate refuses what `run` recorded as passed. */
  lemma PassedCanBeRefused(seen: nat, extra: bool)
    ensures var step := OneStep(seen, extra);
      var record := Record(Passed, false, Some(SMALL), [OneAttempt(seen, extra)], Some(CLEAN));
      var evidence := Evidence(Some(SMALL), [step.files], Some(CLEAN));
      && Recorded(record, evidence, [], 0.0, Some(SMALL), [step, step, step])
      && (Accepted(record, evidence, Some(0)) <==> seen == 0 && !extra)
  {
    hide Auditable, Covers, Findings;
    SmallIsAuditable();
    var step := OneStep(seen, extra);
    var record := Record(Passed, false, Some(SMALL), [OneAttempt(seen, extra)], Some(CLEAN));
    var evidence := Evidence(Some(SMALL), [step.files], Some(CLEAN));
    var steps := [step, step, step];
    assert Judged(OneAttempt(seen, extra), 1, 0.0, SMALL, step);
    assert Recorded(record, evidence, [], 0.0, Some(SMALL), steps);
    PassedAccepted(record, evidence, [], 0.0, Some(SMALL), steps);
  }

  /** One row for the package, at its version and without findings. */
  predicate ClearedOnce(rows: seq<Row>, p: Package) {
    exists k :: 0 <= k < |rows| && rows[k] == Row(p.name, p.version, false, true, 0)
                && forall j :: 0 <= j < |rows| && rows[j].name == p.name ==> j == k
  }

  lemma {:induction false} NoFindings(rows: seq<Row>, k: nat)
    requires Findings(rows) == 0 && k < |rows|
    ensures rows[k].findings == 0
  {
    if k < |rows| - 1 {
      NoFindings(rows[..|rows| - 1], k);
    }
  }

  lemma CoveredOnce(report: Report, inventory: Inventory, p: Package)
    requires Covers(report, inventory) && Findings(report.rows) == 0
    requires p in inventory.packages && p.name != OWNED
    ensures ClearedOnce(report.rows, p)
  {
    hide ValidPackage, Findings, Excludes;
    var rows := report.rows;
    var k :| 0 <= k < |rows| && RowNames(rows)[k] == p.name;
    NoFindings(rows, k);
    assert rows[k] in rows && ThirdParty(inventory, rows[k].name, rows[k].version);
    var q :| q in inventory.packages && q.name == rows[k].name && q.version == rows[k].version;
    SamePackage(inventory.packages, p, q);
    forall j | 0 <= j < |rows| && rows[j].name == p.name ensures j == k {
      assert RowNames(rows)[j] == RowNames(rows)[k];
    }
  }

  /**
   Whatever the record and the directory hold, acceptance means: at most three attempts, all but
   the last transient and without findings, and a report with exactly one clean row for every
   installed third-party package.
   */
  lemma AcceptanceMeans(record: Record, evidence: Evidence, returncode: Option<int>)
    requires Accepted(record, evidence, returncode)
    ensures 1 <= |record.attempts| <= 3
    ensures forall k :: 0 <= k < |record.attempts| - 1 ==>
      k < |evidence.attempts| && evidence.attempts[k].outcome.Some?
      && CleanRetry(record.attempts[k], evidence.attempts[k].outcome.value)
    ensures forall p :: p in evidence.inventory.value.packages && p.name != OWNED ==>
              ClearedOnce(evidence.report.value.rows, p)
  {
    hide ClearedOnce, Covers, Findings;
    forall k | 0 <= k < |record.attempts| - 1
      ensures k < |evidence.attempts| && evidence.attempts[k].outcome.Some?
      ensures CleanRetry(record.attempts[k], evidence.attempts[k].outcome.value)
    {
      assert GateAttempt(
        record.attempts[k], k + 1, k == |record.attempts| - 1, evidence.inventory.value, evidence.attempts[k]);
    }
    forall p | p in evidence.inventory.value.packages && p.name != OWNED
      ensures ClearedOnce(evidence.report.value.rows, p)
    {
      CoveredOnce(evidence.report.value, evidence.inventory.value, p);
    }
  }

  // ----- Time -----

  /** The time that a worker gets: what is left of the deadline. */
  function Timeout(began: real, step: Step): real {
    DEADLINE - (step.started - began)
  }

  /** `subprocess.run` is called at all; a worker that then times out counts as well. */
  predicate Launched(began: real, step: Step) {
    Timeout(began, step) > 0.0
  }

  /** The clock does not go back, a sleep takes at least its delay, and a launched worker is over
      when its timeout is. */
  predicate Elapses(began: real, steps: seq<Step>, sleeps: seq<real>)
    requires |steps| >= 3
  {
    && began <= steps[0].started
    && (forall k :: 0 <= k < |steps| ==> steps[k].started <= steps[k].ended <= steps[k].checked)
    && (forall k :: 0 <= k < |steps| && Launched(began, steps[k]) ==>
          steps[k].ended - steps[k].started <= Timeout(began, steps[k]))
    && forall k :: 0 <= k < |sleeps| && k < |steps| - 1 ==> steps[k].checked + sleeps[k] <= steps[k + 1].started
  }

  function Total(sleeps: seq<real>): real {
    if sleeps == [] then 0.0 else Total(sleeps[..|sleeps| - 1]) + sleeps[|sleeps| - 1]
  }

  /** The time that the launched workers of the first n attempts took. */
  function Worked(began: real, steps: seq<Step>, n: nat): real
    requires n <= |steps|
  {
    if n == 0 then 0.0
    else
      var step := steps[n - 1];
      Worked(began, steps, n - 1) + if Launched(began, step) then step.ended - step.started else 0.0
  }

  /** Workers and sleeps follow one another. */
  lemma {:induction false} BusyBy(began: real, steps: seq<Step>, sleeps: seq<real>)
    requires |steps| >= 3 && |sleeps| < |steps| && Elapses(began, steps, sleeps)
    ensures began + Worked(began, steps, |sleeps|) + Total(sleeps) <= steps[|sleeps|].started
  {
    if sleeps != [] {
      BusyBy(began, steps, sleeps[..|sleeps| - 1]);
    }
  }

  /** All launched workers, also those that time out, and all sleeps of a run together fit into the
      deadline; no sleep is shorter than its backoff. */
  lemma WithinDeadline(
      record: Record, evidence: Evidence, sleeps: seq<real>, began: real, captured: Option<Inventory>, steps: seq<Step>)
    requires |steps| >= 3 && Recorded(record, evidence, sleeps, began, captured, steps) && Elapses(began, steps, sleeps)
    ensures Worked(began, steps, |record.attempts|) + Total(sleeps) <= DEADLINE
    ensures forall k :: 0 <= k < |sleeps| ==> Backoff(k + 1) <= sleeps[k] <= 60.0
  {
    hide Judged, Auditable, Stopped, Concluded, ValidOutcome, CleanRetry, Elapses, Total, Worked;
    forall k | 0 <= k < |sleeps| ensures Backoff(k + 1) <= sleeps[k] <= 60.0 {
      assert Judged(record.attempts[k], k + 1, began, captured.value, steps[k]);
      RetryAfterBound(record.attempts[k], k + 1, began, captured.value, steps[k]);
    }
    if record.attempts == [] {
      NoTime(began, steps);
    } else {
      BusyTime(record.attempts, sleeps, began, steps);
    }
  }

  lemma NoTime(began: real, steps: seq<Step>)
    ensures Worked(began, steps, 0) + Total([]) <= DEADLINE
  {
  }

  lemma BusyTime(attempts: seq<Attempt>, sleeps: seq<real>, began: real, steps: seq<Step>)
    requires |steps| >= 3 && 1 <= |attempts| <= 3 && |sleeps| == |attempts| - 1
    requires Repeated(attempts, sleeps, began, steps) && Elapses(began, steps, sleeps)
    ensures Worked(began, steps, |attempts|) + Total(sleeps) <= DEADLINE
  {
    hide Delay;
    var n := |sleeps|;
    BusyBy(began, steps, sleeps);
    if n > 0 && !Launched(began, steps[n]) {
      var last := sleeps[..n - 1];
      BusyBy(began, steps, last);
      assert steps[n - 1].checked - began + sleeps[n - 1] < DEADLINE;
      assert Worked(began, steps, n) + Total(sleeps) <= DEADLINE;
    }
  }

  lemma RetryAfterBound(a: Attempt, number: nat, began: real, inventory: Inventory, step: Step)
    requires Judged(a, number, began, inventory, step) && a.retryable
    ensures a.number == number && a.retryAfter <= 60.0
  {
  }
}
