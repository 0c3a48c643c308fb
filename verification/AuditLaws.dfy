/**
 The dependency audit without its record predicates: when an attempt is repeated, what a run
 concludes, what the gate has seen, and which names and reports are valid.
 */
module AuditLaws {
  import opened Results
  import opened Sorting
  import opened Audit
  import opened AuditRun

  // ----- when an attempt is repeated

  /** The pause before the next attempt: the schedule, or longer when the index asks for it. */
  function Pause(k: nat, asked: real): real {
    var schedule := if k == 0 then 5.0 else 15.0;
    if asked > schedule then asked else schedule
  }

  /** The worker was started before the deadline and left evidence about this inventory. */
  predicate Credible(began: real, inventory: Inventory, step: Step) {
    && step.started - began < 540.0 && step.files.outcome.Some? && step.files.report.Some?
    && var o := step.files.outcome.value;
       && o.identified && o.typed && o.inventory == inventory && o.report == step.files.report
       && (o.retryable ==> o.category == Transient) && 0.0 <= o.retryAfter <= 60.0
  }

  /** A transient failure without findings that leaves time for another attempt. */
  predicate WorthRepeating(k: nat, began: real, inventory: Inventory, step: Step) {
    && Credible(began, inventory, step) && step.returncode == Some(1)
    && var o := step.files.outcome.value;
       && o.retryable && o.findingsSeen == 0
       && step.checked - began + Pause(k, o.retryAfter) < 540.0
  }

  lemma RepeatedStep(a: Attempt, k: nat, began: real, inventory: Inventory, step: Step)
    requires Judged(a, k + 1, began, inventory, step)
    ensures a.retryable && step.checked - began + Delay(a) < DEADLINE <==> WorthRepeating(k, began, inventory, step)
    ensures a.retryable ==> step.files.outcome.Some? && Delay(a) == Pause(k, step.files.outcome.value.retryAfter)
    ensures a.retryable ==> !Decisive(began, inventory, step)
  {
    hide Covers, Findings;
  }

  /**
   The retry loop makes another attempt exactly after a credible transient failure without findings
   that leaves time for it, at most three in all; each pause is the longer of the schedule and what
   the index asked for.
   */
  lemma RepeatedExactly(record: Record, evidence: Evidence, sleeps: seq<real>, began: real, captured: Option<Inventory>,
      steps: seq<Step>)
    requires |steps| >= 3 && Recorded(record, evidence, sleeps, began, captured, steps)
    requires captured.Some? && Auditable(captured.value)
    ensures 1 <= |record.attempts| <= 3 && |sleeps| == |record.attempts| - 1
    ensures forall k :: 0 <= k < |sleeps| ==>
              && WorthRepeating(k, began, captured.value, steps[k]) && steps[k].files.outcome.Some?
              && sleeps[k] == Pause(k, steps[k].files.outcome.value.retryAfter)
    ensures |record.attempts| < 3 ==>
              !WorthRepeating(|record.attempts| - 1, began, captured.value, steps[|record.attempts| - 1])
  {
    hide Judged, Auditable, Delay, WorthRepeating, Concluded, Decisive, Pause;
    var n := |record.attempts|;
    assert forall k :: 0 <= k < n ==> Judged(record.attempts[k], k + 1, began, captured.value, steps[k]);
    forall k | 0 <= k < |sleeps|
      ensures WorthRepeating(k, began, captured.value, steps[k])
      ensures steps[k].files.outcome.Some? && sleeps[k] == Pause(k, steps[k].files.outcome.value.retryAfter)
    {
      RepeatedStep(record.attempts[k], k, began, captured.value, steps[k]);
    }
    RepeatedStep(record.attempts[n - 1], n - 1, began, captured.value, steps[n - 1]);
    NumberOf(record.attempts[n - 1], n, began, captured.value, steps[n - 1]);
  }

  lemma NumberOf(a: Attempt, number: nat, began: real, inventory: Inventory, step: Step)
    requires Judged(a, number, began, inventory, step)
    ensures a.number == number
  {
  }

  // ----- what a run concludes

  /** The worker finished cleanly, its report covers the inventory, and nothing changed meanwhile. */
  predicate Measured(began: real, inventory: Inventory, step: Step) {
    && Credible(began, inventory, step) && step.returncode == Some(0)
    && step.files.outcome.value.category == Completed && !step.files.outcome.value.failed
    && Covers(step.files.report.value, inventory) && step.recaptured == Some(inventory)
  }

  /** No row has a finding. */
  predicate Clear(report: Report) {
    forall row :: row in report.rows ==> row.findings == 0
  }

  lemma {:induction false} FindingsNowhere(rows: seq<Row>)
    ensures Findings(rows) == 0 <==> forall row :: row in rows ==> row.findings == 0
  {
    if rows != [] {
      var n := |rows| - 1;
      FindingsNowhere(rows[..n]);
      assert rows == rows[..n] + [rows[n]];
    }
  }

  /**
   A run passes exactly when its last worker measured the whole inventory and no row of its report
   has a finding; it publishes that report, and also one with findings, but never another.
   */
  lemma ConcludedExactly(record: Record, evidence: Evidence, sleeps: seq<real>, began: real,
      captured: Option<Inventory>, steps: seq<Step>)
    requires |steps| >= 3 && Recorded(record, evidence, sleeps, began, captured, steps)
    requires captured.Some? && Auditable(captured.value) && record.attempts != [] && |record.attempts| <= 3
    ensures var last := steps[|record.attempts| - 1];
            var measured := Measured(began, captured.value, last);
            && (record.status == Passed <==> measured && Clear(last.files.report.value))
            && (record.status == Vulnerabilities <==> measured && !Clear(last.files.report.value))
            && (record.status == Passed || record.status == Vulnerabilities || record.status == Incomplete)
            && (record.failed <==> record.status != Passed)
            && record.report == evidence.report == if measured then last.files.report else None
  {
    hide Judged, Auditable, Covers, Findings, Stopped, Repeated;
    var n := |record.attempts|;
    var last := steps[n - 1];
    assert Judged(record.attempts[n - 1], n, began, captured.value, last);
    JudgedMeasured(record.attempts[n - 1], n, began, captured.value, last);
  }

  lemma JudgedMeasured(a: Attempt, number: nat, began: real, inventory: Inventory, step: Step)
    requires Judged(a, number, began, inventory, step)
    ensures Decisive(began, inventory, step) <==> Measured(began, inventory, step)
    ensures Measured(began, inventory, step) ==>
              a.category == if Clear(step.files.report.value) then Passed else Vulnerabilities
  {
    hide Covers, Findings;
    if Measured(began, inventory, step) {
      FindingsNowhere(step.files.report.value.rows);
    }
  }

  // ----- what the gate has seen

  /** What the directory of an attempt has to hold for the gate, told by its files. */
  predicate SeenByGate(a: Attempt, k: nat, inventory: Inventory, disk: Files) {
    && a.number == k + 1 && a.inventory == inventory
    && disk.report.Some? && disk.outcome.Some? && disk.log.Some?
    && a.files == Files(disk.report, disk.outcome, disk.log, false)
    && disk.outcome.value.inventory == inventory && disk.outcome.value.identified
    && disk.outcome.value.report == disk.report && disk.outcome.value.findingsSeen == 0
  }

  /**
   The gate accepts exactly when the record claims success and every commitment in it holds on disk:
   all attempts are about the one inventory and left their three files unchanged, all but the last
   were transient, and the last one's report is the published one, covers the inventory and has no
   finding.
   */
  lemma AcceptedExactly(record: Record, evidence: Evidence, returncode: Option<int>)
    ensures Accepted(record, evidence, returncode) <==>
              var n := |record.attempts|;
              && record.status == Passed && !record.failed && returncode == Some(0)
              && record.inventory.Some? && evidence.inventory == record.inventory
              && 1 <= n <= 3 && n <= |evidence.attempts| && record.attempts[n - 1].category == Passed
              && (forall k :: 0 <= k < n ==>
                    SeenByGate(record.attempts[k], k, record.inventory.value, evidence.attempts[k]))
              && (forall k :: 0 <= k < n ==>
                    && record.attempts[k].returncode == Some(if k == n - 1 then 0 else 1)
                    && evidence.attempts[k].outcome.value.category == (if k == n - 1 then Completed else Transient)
                    && if k == n - 1 then !evidence.attempts[k].outcome.value.failed
                       else evidence.attempts[k].outcome.value.retryable)
              && record.report.Some? && record.report == evidence.report == evidence.attempts[n - 1].report
              && Covers(record.report.value, record.inventory.value)
              && Clear(record.report.value)
  {
    hide Covers, Findings;
    if evidence.report.Some? {
      FindingsNowhere(evidence.report.value.rows);
    }
  }

  // ----- inventories

  /** The owned project is excluded for exactly the version that is installed and was verified. */
  predicate ExcludesVerified(e: Exclusion, p: Package) {
    e == Exclusion("agent-wiki-cli", p.version, false, p.installed, true)
  }

  /** An inventory is audited exactly when every package in it is there once, under its normalised name
      and with its versions, the scanner is the pinned one, and the only package that the report may
      leave out is the verified candidate. */
  lemma AuditableExactly(inventory: Inventory)
    ensures Auditable(inventory) <==>
              && inventory.identified
              && (forall p :: p in inventory.packages ==>
                    NormalizedName(p.name) == Some(p.name) && |p.version| > 0 && |p.installed| > 0)
              && (forall i, j :: 0 <= i < j < |inventory.packages| ==>
                    inventory.packages[i].name != inventory.packages[j].name)
              && (exists p :: p in inventory.packages && p.name == "pip-audit" && p.version == "2.10.1")
              && exists p :: p in inventory.packages && p.name == "agent-wiki-cli"
                             && ExcludesVerified(inventory.exclusion, p)
  {
    hide NormalizedName, Normalized, Distinct;
    var packages := inventory.packages;
    forall p | p in packages ensures Normalized(p.name) <==> NormalizedName(p.name) == Some(p.name) {
      NormalizedIsFixed(p.name);
    }
    DistinctPackages(packages);
    forall p | p in packages && p.name == OWNED
      ensures Excludes(inventory.exclusion, p) <==> ExcludesVerified(inventory.exclusion, p)
    {
    }
    if p, q :| p in packages && p.name == "pip-audit" && q in packages && q.name == "agent-wiki-cli" {
      TwoPackages(packages, p, q);
    }
  }

  lemma DistinctPackages(packages: seq<Package>)
    ensures Distinct(PackageNames(packages)) <==>
              forall i, j :: 0 <= i < j < |packages| ==> packages[i].name != packages[j].name
  {
  }

  lemma TwoPackages(packages: seq<Package>, p: Package, q: Package)
    requires p in packages && q in packages && p != q
    ensures |packages| >= 2
  {
  }

  // ----- reports

  /** Row and package agree on a name and version that is not the owned project's. */
  predicate Pair(row: Row, p: Package) {
    && row.name == p.name && row.version == p.version && p.name != "agent-wiki-cli"
    && !row.skipped && row.wellFormed
  }

  /** A report covers the inventory exactly when its rows and the third-party packages pair up. */
  lemma CoversByPairs(report: Report, inventory: Inventory)
    ensures Covers(report, inventory) <==>
              && report.wellFormed && Auditable(inventory)
              && (forall row :: row in report.rows ==> exists p :: p in inventory.packages && Pair(row, p))
              && (forall i, j :: 0 <= i < j < |report.rows| ==> report.rows[i].name != report.rows[j].name)
              && (forall p :: p in inventory.packages && p.name != "agent-wiki-cli" ==>
                    exists row :: row in report.rows && Pair(row, p))
  {
    hide Auditable, ValidRow, Distinct, Pair;
    var rows := report.rows;
    DistinctRows(rows);
    if Auditable(inventory) {
      forall row | row in rows
        ensures ValidRow(row, inventory) <==> exists p :: p in inventory.packages && Pair(row, p)
      {
        RowIsPaired(row, inventory);
      }
      if forall row :: row in rows ==> ValidRow(row, inventory) {
        forall p | p in inventory.packages && p.name != OWNED
          ensures p.name in RowNames(rows) <==> exists row :: row in rows && Pair(row, p)
        {
          NamedIsPaired(report, inventory, p);
        }
      }
    }
  }

  lemma DistinctRows(rows: seq<Row>)
    ensures Distinct(RowNames(rows)) <==> forall i, j :: 0 <= i < j < |rows| ==> rows[i].name != rows[j].name
  {
  }

  lemma RowIsPaired(row: Row, inventory: Inventory)
    ensures ValidRow(row, inventory) <==> exists p :: p in inventory.packages && Pair(row, p)
  {
  }

  lemma NamedIsPaired(report: Report, inventory: Inventory, p: Package)
    requires Auditable(inventory) && p in inventory.packages && p.name != OWNED
    requires forall row :: row in report.rows ==> ValidRow(row, inventory)
    ensures p.name in RowNames(report.rows) <==> exists row :: row in report.rows && Pair(row, p)
  {
    hide ValidPackage, Excludes;
    var rows := report.rows;
    if p.name in RowNames(rows) {
      var k :| 0 <= k < |rows| && RowNames(rows)[k] == p.name;
      assert rows[k] in rows && ValidRow(rows[k], inventory);
      var q :| q in inventory.packages && q.name == rows[k].name && q.version == rows[k].version;
      SamePackage(inventory.packages, p, q);
      assert Pair(rows[k], p);
    }
    if row :| row in rows && Pair(row, p) {
      var k :| 0 <= k < |rows| && rows[k] == row;
      assert RowNames(rows)[k] == p.name;
    }
  }

  // ----- names

  predicate Separator(c: char) { c == '-' || c == '_' || c == '.' }

  predicate Letter(c: char) { 'a' <= c <= 'z' || 'A' <= c <= 'Z' || '0' <= c <= '9' }

  function Lower(c: char): char {
    if 'A' <= c <= 'Z' then (c as int + 32) as char else c
  }

  /** `re.sub(r"[-_.]+", "-", name).lower()` */
  function Collapsed(name: string): string {
    if name == "" then ""
    else if !Separator(name[0]) then [Lower(name[0])] + Collapsed(name[1..])
    else if |name| > 1 && Separator(name[1]) then Collapsed(name[1..])
    else "-" + Collapsed(name[1..])
  }

  /** The names that the pattern of `normalized_name` admits. */
  predicate Admissible(name: string) {
    && name != "" && Letter(name[0]) && Letter(name[|name| - 1])
    && forall c :: c in name ==> Letter(c) || Separator(c)
  }

  /** `normalized_name(name)` */
  function NormalizedName(name: string): Option<string> {
    if Admissible(name) then Some(Collapsed(name)) else None
  }

  lemma {:induction false} CollapsedIs(name: string)
    requires forall c :: c in name ==> Letter(c) || Separator(c)
    ensures Hyphened(Collapsed(name)) && |Collapsed(name)| <= |name|
    ensures name != "" ==> Collapsed(name) != "" && (Collapsed(name)[0] == '-' <==> Separator(name[0]))
    ensures name != "" && Letter(name[|name| - 1]) ==> Alphanumeric(Collapsed(name)[|Collapsed(name)| - 1])
  {
    if name != "" {
      assert name[0] in name;
      CollapsedIs(name[1..]);
      var rest := Collapsed(name[1..]);
      if !Separator(name[0]) {
        HyphenedCons(Lower(name[0]), rest);
      } else if !(|name| > 1 && Separator(name[1])) {
        HyphenedCons('-', rest);
      }
    }
  }

  lemma HyphenedCons(c: char, rest: string)
    requires Hyphened(rest) && (Alphanumeric(c) || (c == '-' && (rest != "" ==> rest[0] != '-')))
    ensures Hyphened([c] + rest)
  {
    var s := [c] + rest;
    forall i: nat | i < |s| ensures PlainAt(s, i) {
      if i > 0 {
        assert s[i] == rest[i - 1] && PlainAt(rest, i - 1);
      }
    }
  }

  lemma {:induction false} CollapsedFixed(name: string)
    requires Hyphened(name)
    ensures Collapsed(name) == name
  {
    if name != "" {
      var rest := name[1..];
      assert Hyphened(rest) by {
        forall i: nat | i < |rest| ensures PlainAt(rest, i) {
          assert rest[i] == name[i + 1] && PlainAt(name, i + 1);
        }
      }
      CollapsedFixed(rest);
      assert name == [name[0]] + rest;
      assert PlainAt(name, 0) && (|name| > 1 ==> PlainAt(name, 1));
    }
  }

  /** The names that the inventory admits are the fixed points of the normalisation, and every
      normalised name is one of them. */
  lemma NormalizedIsFixed(name: string)
    ensures Normalized(name) <==> NormalizedName(name) == Some(name)
    ensures NormalizedName(name).Some? ==> Normalized(NormalizedName(name).value)
  {
    hide Collapsed;
    if Normalized(name) {
      CollapsedFixed(name);
      forall c | c in name ensures Letter(c) || Separator(c) {
        var i: nat :| i < |name| && name[i] == c;
        assert PlainAt(name, i);
      }
    }
    if Admissible(name) {
      CollapsedIs(name);
      assert PlainAt(Collapsed(name), 0);
    }
  }
}
