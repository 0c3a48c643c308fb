/**
 dependency_audit.py: `scope`, `validate_report`, the retry loop of `run`, and `result_error`, the
 gate that re-reads what the loop left on disk.

 A digest is the value it was taken of.  Categories of a worker other than `completed` and the
 seven transient ones are all `Permanent`.  Clock readings, worker processes and the recaptured
 inventory are inputs, one `Step` for each attempt.
 */
module Audit {
  import opened Results
  import opened Sorting

  const OWNED := "agent-wiki-cli"
  const SCANNER := "pip-audit"
  const PINNED := "2.10.1"
  const DEADLINE: real := 540.0

  // ----- Inventory and report -----

  datatype Package = Package(name: string, version: string, installed: string)

  datatype Exclusion = Exclusion(name: string, version: string, editable: bool, verified: string, hashed: bool)

  /** `identified` says that the schema version and the scanner identity are the expected ones. */
  datatype Inventory = Inventory(identified: bool, packages: seq<Package>, exclusion: Exclusion)

  /** `wellFormed` says that the entry has exactly its fields and that its findings do. */
  datatype Row = Row(name: string, version: string, skipped: bool, wellFormed: bool, findings: nat)

  datatype Report = Report(wellFormed: bool, rows: seq<Row>)

  predicate Alphanumeric(c: char) {
    'a' <= c <= 'z' || '0' <= c <= '9'
  }

  predicate PlainAt(name: string, i: nat)
    requires i < |name|
  {
    Alphanumeric(name[i]) || (name[i] == '-' && (i > 0 ==> name[i - 1] != '-'))
  }

  /** Between letters at most one hyphen. */
  predicate Hyphened(name: string) {
    forall i: nat :: i < |name| ==> PlainAt(name, i)
  }

  /** `normalized_name(name) == name` */
  predicate Normalized(name: string) {
    name != [] && Alphanumeric(name[0]) && Alphanumeric(name[|name| - 1]) && Hyphened(name)
  }

  predicate ValidPackage(p: Package) {
    Normalized(p.name) && p.version != "" && p.installed != ""
  }

  function PackageNames(packages: seq<Package>): (names: seq<string>)
    ensures |names| == |packages| && forall i :: 0 <= i < |names| ==> names[i] == packages[i].name
  {
    seq(|packages|, i requires 0 <= i < |packages| => packages[i].name)
  }

  predicate Excludes(exclusion: Exclusion, owned: Package) {
    && exclusion.name == OWNED && exclusion.version == owned.version
    && !exclusion.editable && exclusion.verified == owned.installed && exclusion.hashed
  }

  /** Every package once, the scanner at its pinned version, the owned project excluded by its
      verified identity. */
  predicate Auditable(inventory: Inventory) {
    && inventory.identified
    && |inventory.packages| >= 2
    && (forall p :: p in inventory.packages ==> ValidPackage(p))
    && Distinct(PackageNames(inventory.packages))
    && (exists p :: p in inventory.packages && p.name == SCANNER && p.version == PINNED)
    && exists p :: p in inventory.packages && p.name == OWNED && Excludes(inventory.exclusion, p)
  }

  /** The package belongs to somebody else and has to be audited. */
  predicate ThirdParty(inventory: Inventory, name: string, version: string) {
    name != OWNED && exists p :: p in inventory.packages && p.name == name && p.version == version
  }

  /** Exactly the third-party packages, at their versions. */
  predicate Scoped(expected: map<string, string>, inventory: Inventory) {
    && (forall name :: name in expected ==> ThirdParty(inventory, name, expected[name]))
    && forall p :: p in inventory.packages && p.name != OWNED ==> p.name in expected && expected[p.name] == p.version
  }

  lemma SamePackage(packages: seq<Package>, p: Package, q: Package)
    requires Distinct(PackageNames(packages)) && p in packages && q in packages && p.name == q.name
    ensures p == q
  {
  }

  /** The versions by name, built one entry at a time. */
  method Collect(packages: seq<Package>) returns (ok: bool, versions: map<string, string>)
    ensures ok <==> (forall p :: p in packages ==> ValidPackage(p)) && Distinct(PackageNames(packages))
    ensures ok ==> forall p :: p in packages ==> p.name in versions && versions[p.name] == p.version
    ensures ok ==> forall name :: name in versions ==> exists p :: p in packages && p.name == name
  {
    hide Normalized;
    versions := map[];
    for i := 0 to |packages|
      invariant forall k :: 0 <= k < i ==> ValidPackage(packages[k])
      invariant forall j, k :: 0 <= j < k < i ==> packages[j].name != packages[k].name
      invariant forall k :: 0 <= k < i ==>
                  packages[k].name in versions && versions[packages[k].name] == packages[k].version
      invariant forall name :: name in versions ==> exists k :: 0 <= k < i && packages[k].name == name
    {
      var row := packages[i];
      if row.name in versions {
        var k :| 0 <= k < i && packages[k].name == row.name;
        assert PackageNames(packages)[k] == PackageNames(packages)[i];
        return false, versions;
      }
      if !ValidPackage(row) {
        assert row in packages;
        return false, versions;
      }
      versions := versions[row.name := row.version];
    }
    ok := true;
  }

  method Scope(inventory: Inventory) returns (expected: Option<map<string, string>>)
    ensures expected.Some? <==> Auditable(inventory)
    ensures expected.Some? ==> Scoped(expected.value, inventory)
  {
    hide ValidPackage, Distinct;
    if !(inventory.identified && |inventory.packages| >= 2) {
      return None;
    }
    var ok, versions := Collect(inventory.packages);
    if !ok {
      return None;
    }
    if !(SCANNER in versions && versions[SCANNER] == PINNED) {
      return None;
    }
    var owned: Option<Package> := None;
    var i := 0;
    while i < |inventory.packages| && owned.None?
      invariant 0 <= i <= |inventory.packages|
      invariant owned.Some? ==> owned.value in inventory.packages && owned.value.name == OWNED
      invariant owned.None? ==> forall k :: 0 <= k < i ==> inventory.packages[k].name != OWNED
    {
      if inventory.packages[i].name == OWNED {
        owned := Some(inventory.packages[i]);
      }
      i := i + 1;
    }
    if owned.None? || !Excludes(inventory.exclusion, owned.value) {
      if owned.Some? {
        forall p | p in inventory.packages && p.name == OWNED ensures p == owned.value {
          SamePackage(inventory.packages, p, owned.value);
        }
      }
      return None;
    }
    expected := Some(versions - {OWNED});
  }

  function Findings(rows: seq<Row>): nat {
    if rows == [] then 0 else Findings(rows[..|rows| - 1]) + rows[|rows| - 1].findings
  }

  predicate ValidRow(row: Row, inventory: Inventory) {
    !row.skipped && row.wellFormed && ThirdParty(inventory, row.name, row.version)
  }

  function RowNames(rows: seq<Row>): (names: seq<string>)
    ensures |names| == |rows| && forall i :: 0 <= i < |names| ==> names[i] == rows[i].name
  {
    seq(|rows|, i requires 0 <= i < |rows| => rows[i].name)
  }

  /** The report has one well-formed, unskipped row for each third-party package, and no other. */
  predicate Covers(report: Report, inventory: Inventory) {
    && report.wellFormed && Auditable(inventory)
    && (forall row :: row in report.rows ==> ValidRow(row, inventory))
    && Distinct(RowNames(report.rows))
    && forall p :: p in inventory.packages && p.name != OWNED ==> p.name in RowNames(report.rows)
  }

  lemma ExpectedVersion(expected: map<string, string>, inventory: Inventory, name: string, version: string)
    requires Auditable(inventory) && Scoped(expected, inventory)
    ensures ThirdParty(inventory, name, version) <==> name in expected && expected[name] == version
  {
  }

  predicate ExpectedRow(row: Row, expected: map<string, string>) {
    !row.skipped && row.wellFormed && row.name in expected && expected[row.name] == row.version
  }

  /** What the loop knows after some rows. */
  predicate Seen(rows: seq<Row>, expected: map<string, string>, observed: map<string, string>, total: nat) {
    && (forall row :: row in rows ==> ExpectedRow(row, expected) && row.name in observed)
    && Distinct(RowNames(rows))
    && (forall name :: name in observed ==>
         name in RowNames(rows) && name in expected && expected[name] == observed[name])
    && total == Findings(rows)
  }

  lemma SeenStep(rows: seq<Row>, row: Row, expected: map<string, string>, observed: map<string, string>, total: nat)
    requires Seen(rows, expected, observed, total) && ExpectedRow(row, expected) && row.name !in observed
    ensures Seen(rows + [row], expected, observed[row.name := row.version], total + row.findings)
  {
    hide Distinct, Elements, ExpectedRow, Findings;
    FindingsAdd(rows, row);
    assert row.name in expected && expected[row.name] == row.version by { RowExpected(row, expected); }
    var all := rows + [row];
    assert RowNames(all) == RowNames(rows) + [row.name];
    forall k | 0 <= k < |rows| ensures RowNames(rows)[k] in observed {
      assert rows[k] in rows;
    }
    assert row.name !in Elements(RowNames(rows)) by { ElementsAre(RowNames(rows)); }
    DistinctAppend(RowNames(rows), row.name);
  }

  lemma FindingsAdd(rows: seq<Row>, row: Row)
    ensures Findings(rows + [row]) == Findings(rows) + row.findings
  {
    assert (rows + [row])[..|rows|] == rows;
  }

  lemma RowExpected(row: Row, expected: map<string, string>)
    requires ExpectedRow(row, expected)
    ensures row.name in expected && expected[row.name] == row.version
  {
  }

  lemma ElementsAre(names: seq<string>)
    ensures forall name :: name in Elements(names) <==> name in names
  {
  }

  lemma RowRefused(rows: seq<Row>, i: nat, expected: map<string, string>, observed: map<string, string>, total: nat)
    requires i < |rows| && Seen(rows[..i], expected, observed, total)
    requires rows[i].name in observed || !ExpectedRow(rows[i], expected)
    ensures !((forall row :: row in rows ==> ExpectedRow(row, expected)) && Distinct(RowNames(rows)))
  {
  }

  lemma SeenAll(rows: seq<Row>, expected: map<string, string>, observed: map<string, string>, total: nat)
    requires Seen(rows, expected, observed, total)
    ensures (forall row :: row in rows ==> ExpectedRow(row, expected)) && Distinct(RowNames(rows))
              && total == Findings(rows)
    ensures forall name :: name in observed <==> name in RowNames(rows)
    ensures forall name :: name in observed ==> name in expected && expected[name] == observed[name]
  {
  }

  method Observe(rows: seq<Row>, expected: map<string, string>)
    returns (ok: bool, observed: map<string, string>, total: nat)
    ensures ok <==> (forall row :: row in rows ==> ExpectedRow(row, expected)) && Distinct(RowNames(rows))
    ensures ok ==> total == Findings(rows)
    ensures ok ==> forall name :: name in observed <==> name in RowNames(rows)
    ensures ok ==> forall name :: name in observed ==> name in expected && expected[name] == observed[name]
  {
    hide *;
    observed, total := map[], 0;
    assert Seen(rows[..0], expected, observed, total) by { NothingSeen(expected); }
    for i := 0 to |rows|
      invariant Seen(rows[..i], expected, observed, total)
    {
      var row := rows[i];
      if row.name in observed || !ExpectedRow(row, expected) {
        RowRefused(rows, i, expected, observed, total);
        return false, observed, total;
      }
      SeenStep(rows[..i], row, expected, observed, total);
      assert rows[..i + 1] == rows[..i] + [row];
      observed := observed[row.name := row.version];
      total := total + row.findings;
    }
    assert rows[..|rows|] == rows;
    SeenAll(rows, expected, observed, total);
    ok := true;
  }

  lemma NothingSeen(expected: map<string, string>)
    ensures Seen([], expected, map[], 0)
  {
  }

  method ValidateReport(report: Report, inventory: Inventory) returns (findings: Option<nat>)
    ensures findings.Some? <==> Covers(report, inventory)
    ensures findings.Some? ==> findings.value == Findings(report.rows)
  {
    hide Auditable, ThirdParty, Distinct;
    if !report.wellFormed {
      return None;
    }
    var expected := Scope(inventory);
    if expected.None? {
      return None;
    }
    forall row | row in report.rows
      ensures ExpectedRow(row, expected.value) <==> ValidRow(row, inventory)
    {
      ExpectedVersion(expected.value, inventory, row.name, row.version);
    }
    var ok, observed, total := Observe(report.rows, expected.value);
    if !ok {
      return None;
    }
    ObservedAll(report, inventory, expected.value, observed);
    findings := if observed == expected.value then Some(total) else None;
  }

  lemma ObservedAll(report: Report, inventory: Inventory, expected: map<string, string>, observed: map<string, string>)
    requires Scoped(expected, inventory)
    requires forall name :: name in observed <==> name in RowNames(report.rows)
    requires forall name :: name in observed ==> name in expected && expected[name] == observed[name]
    ensures observed == expected <==>
              forall p :: p in inventory.packages && p.name != OWNED ==> p.name in RowNames(report.rows)
  {
  }
}
