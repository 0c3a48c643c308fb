/**
 The coverage verdict told by the rows of the databases and of the report: which path a source has,
 which bit stands for a line, and which report line counts a statement.
 */
module CoverageRows {
  import opened Results
  import opened Sorting
  import opened Bitset
  import opened Coverage
  import opened CoverageVerdict

  // ----- names

  /** The path lies below this root and below no other. */
  predicate OnlyRoot(root: Path, path: Path, roots: seq<Path>) {
    root in roots && root <= path && forall other :: other in roots && other <= path ==> other == root
  }

  lemma {:induction false} UnderAll(path: Path, roots: seq<Path>)
    ensures forall root :: root in Under(path, roots) <==> root in roots && root <= path
    ensures Distinct(roots) ==> Distinct(Under(path, roots))
  {
    if roots != [] {
      UnderAll(path, roots[1..]);
      assert roots == [roots[0]] + roots[1..];
      var rest := Under(path, roots[1..]);
      if Distinct(roots) {
        assert roots[0] !in roots[1..];
        assert Under(path, roots) == (if roots[0] <= path then [roots[0]] else []) + rest;
        assert Distinct(roots[1..]) && roots[0] !in rest;
      }
    }
  }

  lemma OneOnly(s: seq<Path>, x: Path)
    requires Distinct(s) && x in s && forall y :: y in s ==> y == x
    ensures s == [x]
  {
    assert s[0] in s && s[|s| - 1] in s;
  }

  /** A path below one root is named by what follows that root. */
  lemma NameBelowRoot(root: Path, name: Path, roots: seq<Path>)
    requires Distinct(roots) && OnlyRoot(root, root + name, roots)
    ensures NameOf(root + name, roots) == name && |Under(root + name, roots)| == 1
  {
    hide Under, Distinct;
    UnderAll(root + name, roots);
    OneOnly(Under(root + name, roots), root);
  }

  lemma NamedBelowRoot(path: Path, roots: seq<Path>) returns (root: Path)
    requires Distinct(roots) && |Under(path, roots)| == 1
    ensures OnlyRoot(root, path, roots) && path == root + NameOf(path, roots)
  {
    var matches := Under(path, roots);
    UnderAll(path, roots);
    root := matches[0];
    assert root in matches;
    forall other | other in roots && other <= path ensures other == root {
      assert other in matches;
    }
  }

  // ----- lines

  /** A file row has the source's path below one of the roots, and its bitset has the bit. */
  predicate BitSet(db: Database, roots: seq<Path>, name: Path, f: FileRow, row: BitRow, n: int) {
    && f in db.files && row in db.rows && row.file == f.id
    && (exists root | root in roots :: OnlyRoot(root, f.path, roots) && f.path == root + name)
    && 0 <= n < 8 * |row.bits| && Set(row.bits[n / 8], n % 8)
  }

  lemma CarriedByRows(db: Database, roots: seq<Path>, name: Path, n: int)
    requires Distinct(roots) && forall f :: f in db.files ==> |Under(f.path, roots)| == 1
    ensures n in Carried(db.rows, db.files, roots, name) <==> exists f, row :: BitSet(db, roots, name, f, row, n)
  {
    hide Set, OnlyRoot;
    if n in Carried(db.rows, db.files, roots, name) {
      var f, row :| f in db.files && row in db.rows && f.id == row.file && NameOf(f.path, roots) == name
                    && n in Decoded(row.bits);
      var root := NamedBelowRoot(f.path, roots);
      RootListed(root, f.path, roots);
      assert BitSet(db, roots, name, f, row, n);
    }
    if f, row :| BitSet(db, roots, name, f, row, n) {
      var root :| root in roots && OnlyRoot(root, f.path, roots) && f.path == root + name;
      NameBelowRoot(root, name, roots);
      assert n in Decoded(row.bits);
    }
  }

  lemma RootListed(root: Path, path: Path, roots: seq<Path>)
    requires OnlyRoot(root, path, roots)
    ensures root in roots
  {
  }

  /**
   A line of a source is observed exactly when some file row below a root has the source's path and
   its bitset has the line's bit; line 0, which stands for an empty file, is never one.
   */
  lemma ObservedByRows(shard: Shard, sources: Sources, name: Path, n: int)
    requires Readable(shard.data, shard.receipt.roots, sources)
    ensures Observed(shard, sources, name, n)
       <==> name in sources && n > 0 && exists f, row :: BitSet(shard.data, shard.receipt.roots, name, f, row, n)
  {
    hide BitSet, Carried, Under, ValidRows, Distinct;
    var db, roots := shard.data, shard.receipt.roots;
    assert forall f :: f in db.files ==> ValidFile(f, roots, sources);
    CarriedByRows(db, roots, name, n);
    if name in sources {
      var lines := Carried(db.rows, db.files, roots, name);
      if n in lines {
        CarriedIsNamed(db, roots, name, n);
        if n > 0 {
          assert lines != {0};
        }
      }
    }
  }

  lemma CarriedIsNamed(db: Database, roots: seq<Path>, name: Path, n: int)
    requires n in Carried(db.rows, db.files, roots, name)
    ensures name in Names(db.files, roots)
  {
    hide NameOf;
  }

  // ----- the verdict by rows

  /** The line of the source ran in some shard: its bit is set in a database of that shard. */
  ghost predicate RanInRows(shards: seq<Shard>, name: Path, n: int) {
    exists shard, f, row :: shard in shards && BitSet(shard.data, shard.receipt.roots, name, f, row, n)
  }

  lemma RanStatementsByRows(shards: seq<Shard>, sources: Sources, statements: Inventory)
    requires forall shard :: shard in shards ==> ShardOk(shard, sources, statements)
    ensures RanStatements(shards, sources, statements)
         == set name, n | name in statements && n in statements[name] && RanInRows(shards, name, n) :: (name, n)
  {
    hide Observed, BitSet, RanInRows, Readable;
    forall name, n | name in statements && n in statements[name]
      ensures RanInRows(shards, name, n) <==> exists shard :: shard in shards && Observed(shard, sources, name, n)
    {
      StatementByRows(shards, sources, statements, name, n);
    }
  }

  lemma StatementByRows(shards: seq<Shard>, sources: Sources, statements: Inventory, name: Path, n: int)
    requires forall shard :: shard in shards ==> ShardOk(shard, sources, statements)
    requires name in statements && n in statements[name]
    ensures RanInRows(shards, name, n) <==> exists shard :: shard in shards && Observed(shard, sources, name, n)
  {
    hide Observed, BitSet, Readable;
    forall shard | shard in shards
      ensures Observed(shard, sources, name, n)
         <==> exists f, row :: BitSet(shard.data, shard.receipt.roots, name, f, row, n)
    {
      assert ValidStatements(statements[name], sources[name].lineCount);
      ObservedByRows(shard, sources, name, n);
    }
  }

  /** The verdict, told by bits: when all evidence agrees, it is accepted exactly when at least 87
      percent of the frozen statements have their bit set in the database of some shard. */
  lemma VerdictByRows(shards: seq<Shard>, joined: Shard, sources: Sources, report: CoverageVerdict.Report)
    requires Agrees(shards, joined, sources, report)
    ensures var statements := joined.receipt.statements;
            var all := set name, n | name in statements && n in statements[name] :: (name, n);
            var ran := set name, n | name in statements && n in statements[name] && RanInRows(shards, name, n)
                         :: (name, n);
            && report.linesValid == |all| && report.linesCovered == |ran|
            && (Accepts(shards, joined, sources, report) <==> |ran| * 100 >= 87 * |all|)
  {
    hide Accepts, ShardOk, RanStatements, ReportAgrees, RanInRows;
    Verdict(shards, joined, sources, report);
    RanStatementsByRows(shards, sources, joined.receipt.statements);
  }

  // ----- the report by lines

  /** The class entry is that of the source: by its name, or by its path in the repository. */
  predicate EntryOf(c: Class, name: Path) {
    || c.filename == ["src", "llm_wiki_cli"] + name
    || (c.filename == name && !(["src", "llm_wiki_cli"] <= name && |name| > 2))
  }

  lemma EntryNames(c: Class, name: Path)
    requires name != []
    ensures ClassName(c) == name <==> EntryOf(c, name)
  {
    if |c.filename| > 2 && PACKAGE <= c.filename {
      assert c.filename == PACKAGE + c.filename[2..];
    }
  }

  /** In a report that agrees, each source has one class entry; the entry has one line for each frozen
      statement and no other, with hits exactly when the statement ran in some shard. */
  lemma ReportTells(shards: seq<Shard>, joined: Shard, sources: Sources, report: CoverageVerdict.Report, name: Path)
    returns (c: Class)
    requires Agrees(shards, joined, sources, report) && name in sources && name != []
    ensures c in report.classes && EntryOf(c, name)
    ensures forall other :: other in report.classes && EntryOf(other, name) ==> other == c
    ensures forall n :: n in joined.receipt.statements[name] <==> exists l :: l in c.lines && l.number == n
    ensures forall l :: l in c.lines ==> (l.hits > 0 <==> RanInRows(shards, name, l.number))
    ensures Distinct(Numbers(c.lines))
  {
    hide ShardOk, RanInRows, RateOk, Cells, ClassName, EntryOf, Listing, Ran, ClassOk, Distinct, Listed;
    InventoryOf(joined, sources);
    var statements, lines := joined.receipt.statements, joined.receipt.lines;
    c := OneEntry(report, statements, lines, name);
    EntryLines(c, statements[name], Listed(lines, name));
    forall l | l in c.lines ensures l.hits > 0 <==> RanInRows(shards, name, l.number) {
      LineRan(shards, joined, sources, report, name, l.number);
    }
  }

  lemma OneEntry(report: CoverageVerdict.Report, statements: Inventory, lines: Inventory, name: Path) returns (c: Class)
    requires ReportAgrees(report, statements, lines) && name in statements && name != []
    ensures c in report.classes && EntryOf(c, name)
    ensures ClassOk(c, Elements(statements[name]), Listed(lines, name))
    ensures forall other :: other in report.classes && EntryOf(other, name) ==> other == c
  {
    hide RateOk, Cells, ClassName, EntryOf, ClassOk, Listed, Distinct, Frozen, Covered;
    assert name in Elements(ClassNames(report.classes));
    c := OneNamed(report.classes, name);
    EntryNames(c, name);
    forall other | other in report.classes && EntryOf(other, name) ensures other == c {
      EntryNames(other, name);
    }
  }

  lemma OneNamed(classes: seq<Class>, name: Path) returns (c: Class)
    requires Distinct(ClassNames(classes)) && name in ClassNames(classes)
    ensures c in classes && ClassName(c) == name
    ensures forall other :: other in classes && ClassName(other) == name ==> other == c
  {
    hide ClassName;
    var i :| 0 <= i < |classes| && ClassNames(classes)[i] == name;
    c := classes[i];
    forall other | other in classes && ClassName(other) == name ensures other == c {
      var j :| 0 <= j < |classes| && classes[j] == other;
      assert ClassNames(classes)[j] == ClassNames(classes)[i];
    }
  }

  lemma LineRan(shards: seq<Shard>, joined: Shard, sources: Sources, report: CoverageVerdict.Report, name: Path, n: int)
    requires Agrees(shards, joined, sources, report)
    requires name in joined.receipt.statements && n in joined.receipt.statements[name]
    ensures n in Listed(joined.receipt.lines, name) <==> RanInRows(shards, name, n)
  {
    hide ShardOk, RanInRows, ReportAgrees, Ran;
    InventoryOf(joined, sources);
    RanIsObserved(shards, sources, joined.receipt.statements, name, n);
    StatementByRows(shards, sources, joined.receipt.statements, name, n);
  }

  lemma EntryLines(c: Class, statements: seq<int>, executed: set<int>)
    requires ClassOk(c, Elements(statements), executed)
    ensures forall n :: n in statements <==> exists l :: l in c.lines && l.number == n
    ensures Distinct(Numbers(c.lines))
    ensures forall l :: l in c.lines ==> (l.hits > 0 <==> l.number in executed)
  {
    hide Distinct;
    var numbers := Numbers(c.lines);
    forall n ensures n in statements <==> exists l :: l in c.lines && l.number == n {
      assert n in statements <==> n in Elements(statements);
      if n in numbers {
        var i :| 0 <= i < |numbers| && numbers[i] == n;
        assert c.lines[i] in c.lines && c.lines[i].number == n;
      }
      if l :| l in c.lines && l.number == n {
        var i :| 0 <= i < |c.lines| && c.lines[i] == l;
        assert numbers[i] == n;
      }
    }
  }
}
