/**
 `statement_inventory` and `validate_combination` of core_coverage.py: the receipts and databases
 of the shards, the joined receipt and database, and the coverage report are held against each
 other and against the threshold of 87 percent.
 */
module CoverageVerdict {
  import opened Results
  import opened Sorting
  import opened Bitset
  import opened Coverage

  /** `schema` says that the receipt has exactly its fields and the expected version. */
  datatype Receipt = Receipt(schema: bool, sources: Sources, roots: seq<Path>, statements: Inventory, lines: Inventory)

  datatype Shard = Shard(receipt: Receipt, data: Database)

  datatype Line = Line(number: int, hits: int)

  datatype Class = Class(filename: Path, lines: seq<Line>)

  datatype Report = Report(classes: seq<Class>, linesValid: int, linesCovered: int, lineRate: real)

  // ----- Frozen statements -----

  ghost predicate ValidStatements(lines: seq<int>, last: nat) {
    Ascending(lines, NumberLeq) && forall n :: n in lines ==> 0 < n <= last
  }

  ghost predicate ValidInventory(statements: Inventory, sources: Sources) {
    && statements.Keys == sources.Keys
    && forall name :: name in statements && name in sources ==>
         ValidStatements(statements[name], sources[name].lineCount)
  }

  lemma ListedOnce(lines: seq<int>)
    ensures lines == Listing(Elements(lines)) <==> Ascending(lines, NumberLeq)
  {
    if Ascending(lines, NumberLeq) {
      AscendingUnique(lines, Listing(Elements(lines)), NumberLeq);
    }
  }

  method StatementInventory(statements: Inventory, sources: Sources) returns (ok: bool)
    ensures ok <==> ValidInventory(statements, sources)
  {
    hide Listing, Ascending;
    if statements.Keys != sources.Keys {
      return false;
    }
    var todo := statements.Keys;
    while todo != {}
      invariant todo <= statements.Keys
      invariant forall name :: name in statements.Keys - todo ==>
                  ValidStatements(statements[name], sources[name].lineCount)
      decreases |todo|
    {
      var name :| name in todo;
      var lines := statements[name];
      ListedOnce(lines);
      if !(lines == Listing(Elements(lines)) && forall n :: n in lines ==> 0 < n <= sources[name].lineCount) {
        return false;
      }
      todo := todo - {name};
    }
    ok := true;
  }

  // ----- Shards and their union -----

  ghost predicate ShardOk(shard: Shard, sources: Sources, statements: Inventory) {
    && shard.receipt.schema
    && shard.receipt.sources == sources
    && ValidInventory(shard.receipt.statements, sources)
    && shard.receipt.statements == statements
    && Readable(shard.data, shard.receipt.roots, sources)
    && Reports(shard.receipt.lines, shard.data, shard.receipt.roots, sources)
  }

  function Listed(lines: Inventory, name: Path): set<int> {
    if name in lines then Elements(lines[name]) else {}
  }

  /** The lines of one source that at least one receipt lists. */
  function Ran(shards: seq<Shard>, name: Path): set<int> {
    set shard, n | shard in shards && n in Listed(shard.receipt.lines, name) :: n
  }

  predicate Unites(union: map<Path, set<int>>, shards: seq<Shard>, sources: Sources) {
    union.Keys == sources.Keys && forall name :: name in union ==> union[name] == Ran(shards, name)
  }

  lemma ReportsUnique(lines: Inventory, others: Inventory, db: Database, roots: seq<Path>, sources: Sources)
    requires Readable(db, roots, sources) && Reports(lines, db, roots, sources)
    ensures Reports(others, db, roots, sources) <==> lines == others
  {
    hide ValidRoots, ValidRows, ValidFile, Executed, Listing, Names;
    NamesAreSources(db.files, roots, sources);
  }

  method CheckShard(shard: Shard, sources: Sources) returns (ok: bool)
    ensures ok <==> ShardOk(shard, sources, shard.receipt.statements)
    ensures ok ==> shard.receipt.lines.Keys <= sources.Keys
  {
    hide ValidInventory, ValidRoots, ValidRows, ValidFile, Executed, Listing, Names;
    if !(shard.receipt.schema && shard.receipt.sources == sources) {
      return false;
    }
    ok := StatementInventory(shard.receipt.statements, sources);
    if !ok {
      return;
    }
    var observed := RawLines(shard.data, shard.receipt.roots, sources);
    if observed.None? {
      return false;
    }
    ReportsUnique(observed.value, shard.receipt.lines, shard.data, shard.receipt.roots, sources);
    NamesAreSources(shard.data.files, shard.receipt.roots, sources);
    ok := observed.value == shard.receipt.lines;
  }

  lemma RanGrows(shards: seq<Shard>, shard: Shard, name: Path)
    ensures Ran(shards + [shard], name) == Ran(shards, name) + Listed(shard.receipt.lines, name)
  {
    hide Listed;
    var all := shards + [shard];
    forall n | n in Ran(shards, name) ensures n in Ran(all, name) {
      var s :| s in shards && n in Listed(s.receipt.lines, name);
      assert s in all;
    }
    forall n | n in Ran(all, name) ensures n in Ran(shards, name) || n in Listed(shard.receipt.lines, name) {
      var s :| s in all && n in Listed(s.receipt.lines, name);
      assert s in shards || s == shard;
    }
    forall n | n in Listed(shard.receipt.lines, name) ensures n in Ran(all, name) {
      assert shard in all;
    }
  }

  /** `union.setdefault(name, set()).update(lines)` for every observed source. */
  method Update(before: map<Path, set<int>>, ghost shards: seq<Shard>, shard: Shard, sources: Sources)
    returns (union: map<Path, set<int>>)
    requires Unites(before, shards, sources) && shard.receipt.lines.Keys <= sources.Keys
    ensures Unites(union, shards + [shard], sources)
  {
    hide Ran;
    union := before;
    var observed := shard.receipt.lines;
    var todo := observed.Keys;
    while todo != {}
      invariant todo <= observed.Keys && union.Keys == before.Keys
      invariant forall name :: name in before && name in todo ==> union[name] == before[name]
      invariant forall name :: name in before && name !in todo ==> union[name] == before[name] + Listed(observed, name)
      decreases |todo|
    {
      var name :| name in todo;
      union := union[name := union[name] + Elements(observed[name])];
      todo := todo - {name};
    }
    forall name | name in union ensures union[name] == Ran(shards + [shard], name) {
      RanGrows(shards, shard, name);
    }
  }

  method UniteShards(shards: seq<Shard>, sources: Sources)
    returns (ok: bool, statements: Inventory, union: map<Path, set<int>>)
    ensures ok <==> shards != [] && forall shard :: shard in shards ==>
              ShardOk(shard, sources, shards[0].receipt.statements)
    ensures ok ==> statements == shards[0].receipt.statements && Unites(union, shards, sources)
  {
    hide ShardOk, Ran;
    union := map name | name in sources :: {};
    var known: Option<Inventory> := None;
    statements := map[];
    RanNowhere(sources);
    for i := 0 to |shards|
      invariant known == if i == 0 then None else Some(shards[0].receipt.statements)
      invariant forall k :: 0 <= k < i ==> ShardOk(shards[k], sources, shards[0].receipt.statements)
      invariant Unites(union, shards[..i], sources)
    {
      var shard := shards[i];
      var valid := CheckShard(shard, sources);
      SameStatements(shard, sources, shards[0].receipt.statements);
      if !valid {
        return false, statements, union;
      }
      if known.None? {
        known := Some(shard.receipt.statements);
      }
      if known.value != shard.receipt.statements {
        return false, statements, union;
      }
      union := Update(union, shards[..i], shard, sources);
      assert shards[..i + 1] == shards[..i] + [shard];
    }
    assert shards[..|shards|] == shards;
    ok := known.Some?;
    if ok {
      statements := known.value;
    }
  }

  lemma RanNowhere(sources: Sources)
    ensures forall name :: name in sources ==> Ran([], name) == {}
  {
  }

  lemma SameStatements(shard: Shard, sources: Sources, statements: Inventory)
    ensures ShardOk(shard, sources, statements)
       <==> ShardOk(shard, sources, shard.receipt.statements) && statements == shard.receipt.statements
  {
  }

  // ----- The report -----

  const PACKAGE: Path := ["src", "llm_wiki_cli"]

  /** The name of a class entry, below the package when it is given from the root. */
  function ClassName(c: Class): Path {
    if |c.filename| > 2 && PACKAGE <= c.filename then c.filename[2..] else c.filename
  }

  function Numbers(lines: seq<Line>): (r: seq<int>)
    ensures |r| == |lines| && forall i :: 0 <= i < |r| ==> r[i] == lines[i].number
  {
    seq(|lines|, i requires 0 <= i < |lines| => lines[i].number)
  }

  /** A class lists each of its statements once, with hits exactly on the executed ones. */
  predicate ClassOk(c: Class, statements: set<int>, executed: set<int>) {
    && Distinct(Numbers(c.lines))
    && Elements(Numbers(c.lines)) == statements
    && forall l :: l in c.lines ==> l.hits >= 0 && (l.hits > 0 <==> l.number in executed)
  }

  predicate Counted(lines: seq<Line>, executed: set<int>, lineIds: set<int>, counted: nat, covered: nat) {
    && lineIds == Elements(Numbers(lines))
    && Distinct(Numbers(lines))
    && (forall l :: l in lines ==> l.hits >= 0 && (l.hits > 0 <==> l.number in executed))
    && counted == |lineIds| && covered == |lineIds * executed|
  }

  lemma IntersectionGrows(s: set<int>, executed: set<int>, n: int)
    requires n !in s
    ensures |(s + {n}) * executed| == |s * executed| + if n in executed then 1 else 0
  {
    assert (s + {n}) * executed == s * executed + (if n in executed then {n} else {});
  }

  lemma CountedStep(lines: seq<Line>, line: Line, executed: set<int>, lineIds: set<int>, counted: nat, covered: nat)
    requires Counted(lines, executed, lineIds, counted, covered)
    requires line.number !in lineIds && line.hits >= 0 && (line.hits > 0 <==> line.number in executed)
    ensures Counted(lines + [line], executed, lineIds + {line.number}, counted + 1,
              covered + if line.hits > 0 then 1 else 0)
  {
    hide Distinct, Elements;
    DistinctAppend(Numbers(lines), line.number);
    IntersectionGrows(lineIds, executed, line.number);
    assert Numbers(lines + [line]) == Numbers(lines) + [line.number];
  }

  lemma RepeatedNumber(lines: seq<Line>, i: nat)
    requires i < |lines| && lines[i].number in Elements(Numbers(lines[..i]))
    ensures !Distinct(Numbers(lines))
  {
  }

  lemma LineRefused(c: Class, line: Line, statements: seq<int>, executed: set<int>, last: nat)
    requires line in c.lines && forall n :: n in statements ==> 0 < n <= last
    requires !(0 < line.number <= last && line.hits >= 0 && (line.hits > 0 <==> line.number in executed))
    ensures !ClassOk(c, Elements(statements), executed)
  {
    hide Distinct;
    var i :| 0 <= i < |c.lines| && c.lines[i] == line;
    assert Numbers(c.lines)[i] == line.number;
    assert line.number in Elements(Numbers(c.lines));
  }

  /** The inner loop, with its two counters. */
  method CheckClass(c: Class, statements: seq<int>, executed: seq<int>, last: nat)
    returns (ok: bool, counted: nat, covered: nat)
    requires forall n :: n in statements ==> 0 < n <= last
    ensures ok <==> ClassOk(c, Elements(statements), Elements(executed))
    ensures ok ==> counted == |Elements(statements)| && covered == |Elements(statements) * Elements(executed)|
  {
    hide *;
    var lineIds := {};
    counted, covered := 0, 0;
    NothingCounted(Elements(executed));
    for i := 0 to |c.lines|
      invariant Counted(c.lines[..i], Elements(executed), lineIds, counted, covered)
    {
      var line := c.lines[i];
      CountedMeans(c.lines[..i], Elements(executed), lineIds, counted, covered);
      if line.number in lineIds {
        RepeatedNumber(c.lines, i);
        ClassNeeds(c, Elements(statements), Elements(executed));
        return false, counted, covered;
      }
      if !(0 < line.number <= last && line.hits >= 0 && ((line.hits > 0) == (line.number in executed))) {
        ElementsOf(executed);
        LineRefused(c, line, statements, Elements(executed), last);
        return false, counted, covered;
      }
      ElementsOf(executed);
      CountedStep(c.lines[..i], line, Elements(executed), lineIds, counted, covered);
      assert c.lines[..i + 1] == c.lines[..i] + [line];
      lineIds := lineIds + {line.number};
      counted := counted + 1;
      covered := covered + if line.hits > 0 then 1 else 0;
    }
    assert c.lines[..|c.lines|] == c.lines;
    CountedMeans(c.lines, Elements(executed), lineIds, counted, covered);
    ClassNeeds(c, Elements(statements), Elements(executed));
    ok := lineIds == Elements(statements);
  }

  lemma ElementsOf(s: seq<int>)
    ensures forall n :: n in s <==> n in Elements(s)
  {
  }

  lemma ClassNeeds(c: Class, statements: set<int>, executed: set<int>)
    ensures ClassOk(c, statements, executed)
       <==> Distinct(Numbers(c.lines)) && Elements(Numbers(c.lines)) == statements
            && forall l :: l in c.lines ==> l.hits >= 0 && (l.hits > 0 <==> l.number in executed)
  {
  }

  lemma NothingCounted(executed: set<int>)
    ensures Counted([], executed, {}, 0, 0)
  {
  }

  lemma CountedMeans(lines: seq<Line>, executed: set<int>, lineIds: set<int>, counted: nat, covered: nat)
    requires Counted(lines, executed, lineIds, counted, covered)
    ensures lineIds == Elements(Numbers(lines)) && Distinct(Numbers(lines))
    ensures forall l :: l in lines ==> l.hits >= 0 && (l.hits > 0 <==> l.number in executed)
    ensures counted == |lineIds| && covered == |lineIds * executed|
  {
  }

  /** The cells (source, line) of a map from sources to sets of lines. */
  function Cells(m: map<Path, set<int>>): set<(Path, int)> {
    set name, n | name in m && n in m[name] :: (name, n)
  }

  function Frozen(statements: Inventory): map<Path, set<int>> {
    map name | name in statements :: Elements(statements[name])
  }

  function Covered(statements: Inventory, lines: Inventory): map<Path, set<int>> {
    map name | name in statements :: Elements(statements[name]) * Listed(lines, name)
  }

  lemma {:induction false} CellCount(name: Path, s: set<int>)
    ensures |set n | n in s :: (name, n)| == |s|
    decreases |s|
  {
    var cells := set n | n in s :: (name, n);
    if s != {} {
      var x := Listing(s)[0];
      assert x in Elements(Listing(s));
      CellCount(name, s - {x});
      assert cells == (set n | n in s - {x} :: (name, n)) + {(name, x)};
    }
  }

  lemma CellsGrow(m: map<Path, set<int>>, name: Path, s: set<int>)
    requires name !in m
    ensures |Cells(m[name := s])| == |Cells(m)| + |s|
  {
    var more := set n | n in s :: (name, n);
    CellCount(name, s);
    assert Cells(m[name := s]) == Cells(m) + more;
    assert Cells(m) !! more;
  }

  function ClassNames(classes: seq<Class>): (names: seq<Path>)
    ensures |names| == |classes| && forall i :: 0 <= i < |names| ==> names[i] == ClassName(classes[i])
  {
    seq(|classes|, i requires 0 <= i < |classes| => ClassName(classes[i]))
  }

  predicate ClassesOk(classes: seq<Class>, statements: Inventory, lines: Inventory) {
    && Distinct(ClassNames(classes))
    && forall c :: c in classes ==>
         ClassName(c) in statements && ClassOk(c, Elements(statements[ClassName(c)]), Listed(lines, ClassName(c)))
  }

  predicate RateOk(rate: real, covered: int, statements: int)
    requires statements > 0
  {
    -0.0001 < rate - covered as real / statements as real < 0.0001
  }

  /** `covered * 100 >= 87 * statements` */
  predicate Reaches(covered: int, statements: int) {
    covered * 100 >= 87 * statements
  }

  /** The report covers every frozen source, agrees line by line with the executed lines, and counts
      all frozen statements and the executed ones. */
  predicate ReportAgrees(report: Report, statements: Inventory, lines: Inventory) {
    var total := |Cells(Frozen(statements))|;
    var covered := |Cells(Covered(statements, lines))|;
    && ClassesOk(report.classes, statements, lines)
    && Elements(ClassNames(report.classes)) == statements.Keys
    && total > 0 && report.linesValid == total && report.linesCovered == covered
    && RateOk(report.lineRate, covered, total)
  }

  /** What the outer loop knows after some classes: the sources seen and the two counters. */
  ghost predicate Tallied(classes: seq<Class>, statement: Inventory, lines: Inventory, seen: set<Path>, statements: nat,
      covered: nat)
  {
    && seen == Elements(ClassNames(classes)) <= statement.Keys
    && ClassesOk(classes, statement, lines)
    && statements == |Cells(Restrict(Frozen(statement), seen))|
    && covered == |Cells(Restrict(Covered(statement, lines), seen))|
  }

  function Restrict(m: map<Path, set<int>>, names: set<Path>): map<Path, set<int>> {
    map name | name in names && name in m :: m[name]
  }

  lemma RestrictGrows(m: map<Path, set<int>>, names: set<Path>, name: Path)
    requires name in m && name !in names
    ensures |Cells(Restrict(m, names + {name}))| == |Cells(Restrict(m, names))| + |m[name]|
  {
    hide Cells;
    CellsGrow(Restrict(m, names), name, m[name]);
    assert Restrict(m, names + {name}) == Restrict(m, names)[name := m[name]];
  }

  lemma ClassesOkStep(classes: seq<Class>, c: Class, statement: Inventory, lines: Inventory)
    requires ClassesOk(classes, statement, lines)
    requires ClassName(c) in statement && ClassName(c) !in Elements(ClassNames(classes))
    requires ClassOk(c, Elements(statement[ClassName(c)]), Listed(lines, ClassName(c)))
    ensures ClassesOk(classes + [c], statement, lines)
    ensures Elements(ClassNames(classes + [c])) == Elements(ClassNames(classes)) + {ClassName(c)}
  {
    hide ClassName, ClassOk, Distinct, Listed;
    NewName(classes, c);
  }

  lemma TalliedStep(classes: seq<Class>, c: Class, statement: Inventory, lines: Inventory, seen: set<Path>,
      statements: nat, covered: nat)
    requires Tallied(classes, statement, lines, seen, statements, covered)
    requires ClassName(c) in statement && ClassName(c) !in seen
    requires ClassOk(c, Elements(statement[ClassName(c)]), Listed(lines, ClassName(c)))
    ensures Tallied(classes + [c], statement, lines, seen + {ClassName(c)},
                    statements + |Elements(statement[ClassName(c)])|,
                    covered + |Elements(statement[ClassName(c)]) * Listed(lines, ClassName(c))|)
  {
    hide ClassName, ClassOk, Cells, ClassesOk, Restrict, Listed;
    ClassesOkStep(classes, c, statement, lines);
    RestrictGrows(Frozen(statement), seen, ClassName(c));
    RestrictGrows(Covered(statement, lines), seen, ClassName(c));
  }

  lemma TalliedAll(classes: seq<Class>, statement: Inventory, lines: Inventory, statements: nat, covered: nat)
    requires Tallied(classes, statement, lines, statement.Keys, statements, covered)
    ensures statements == |Cells(Frozen(statement))| && covered == |Cells(Covered(statement, lines))|
  {
    hide Cells, ClassesOk;
    assert Restrict(Frozen(statement), statement.Keys) == Frozen(statement);
    assert Restrict(Covered(statement, lines), statement.Keys) == Covered(statement, lines);
  }

  lemma NothingTallied(statement: Inventory, lines: Inventory)
    ensures Tallied([], statement, lines, {}, 0, 0)
  {
  }

  method CheckClasses(classes: seq<Class>, sources: Sources, statement: Inventory, lines: Inventory)
    returns (ok: bool, statements: nat, covered: nat)
    requires ValidInventory(statement, sources) && lines.Keys == sources.Keys
    ensures ok <==> ClassesOk(classes, statement, lines) && Elements(ClassNames(classes)) == statement.Keys
    ensures ok ==> statements == |Cells(Frozen(statement))| && covered == |Cells(Covered(statement, lines))|
  {
    hide *;
    statements, covered := 0, 0;
    var seen: set<Path> := {};
    NothingTallied(statement, lines);
    SameKeys(statement, sources);
    for i := 0 to |classes|
      invariant Tallied(classes[..i], statement, lines, seen, statements, covered)
    {
      var name := ClassName(classes[i]);
      TalliedMeans(classes[..i], statement, lines, seen, statements, covered);
      if name !in sources || name in seen {
        NameRefused(classes, i, statement, lines);
        return false, statements, covered;
      }
      LastLine(statement, sources, lines, name);
      var valid, counted, found := CheckClass(classes[i], statement[name], lines[name], Bound(sources[name]));
      if !valid {
        ClassRefused(classes, i, statement, lines);
        return false, statements, covered;
      }
      TalliedStep(classes[..i], classes[i], statement, lines, seen, statements, covered);
      assert classes[..i + 1] == classes[..i] + [classes[i]];
      seen := seen + {name};
      statements := statements + counted;
      covered := covered + found;
    }
    assert classes[..|classes|] == classes;
    ok := seen == sources.Keys;
    TalliedMeans(classes, statement, lines, seen, statements, covered);
    if ok {
      TalliedAll(classes, statement, lines, statements, covered);
    }
  }

  lemma SameKeys(statement: Inventory, sources: Sources)
    requires ValidInventory(statement, sources)
    ensures statement.Keys == sources.Keys
  {
  }

  lemma LastLine(statement: Inventory, sources: Sources, lines: Inventory, name: Path)
    requires ValidInventory(statement, sources) && name in sources && name in statement && name in lines
    ensures forall n :: n in statement[name] ==> 0 < n <= Bound(sources[name])
    ensures Listed(lines, name) == Elements(lines[name])
  {
  }

  lemma ClassRefused(classes: seq<Class>, i: nat, statement: Inventory, lines: Inventory)
    requires i < |classes| && ClassName(classes[i]) in statement
    requires !ClassOk(classes[i], Elements(statement[ClassName(classes[i])]), Listed(lines, ClassName(classes[i])))
    ensures !ClassesOk(classes, statement, lines)
  {
  }

  lemma TalliedMeans(classes: seq<Class>, statement: Inventory, lines: Inventory, seen: set<Path>, statements: nat,
      covered: nat)
    requires Tallied(classes, statement, lines, seen, statements, covered)
    ensures ClassesOk(classes, statement, lines) && seen == Elements(ClassNames(classes))
  {
  }

  lemma NewName(classes: seq<Class>, c: Class)
    requires Distinct(ClassNames(classes)) && ClassName(c) !in Elements(ClassNames(classes))
    ensures Distinct(ClassNames(classes + [c]))
    ensures Elements(ClassNames(classes + [c])) == Elements(ClassNames(classes)) + {ClassName(c)}
  {
    hide ClassName;
    var names := ClassNames(classes);
    assert forall name :: name in names ==> name in Elements(names);
    assert ClassNames(classes + [c]) == names + [ClassName(c)];
  }

  lemma NameRefused(classes: seq<Class>, i: nat, statement: Inventory, lines: Inventory)
    requires i < |classes|
    requires ClassName(classes[i]) !in statement || ClassName(classes[i]) in Elements(ClassNames(classes[..i]))
    ensures !ClassesOk(classes, statement, lines)
  {
  }

  // ----- The verdict -----

  /** All evidence fits together: every shard's receipt is what its database holds, the joined
      receipt is what the joined database holds and lists exactly the lines of the union, and the
      report agrees with it. */
  ghost predicate Agrees(shards: seq<Shard>, joined: Shard, sources: Sources, report: Report) {
    && shards != []
    && (forall shard :: shard in shards ==> ShardOk(shard, sources, joined.receipt.statements))
    && ShardOk(joined, sources, joined.receipt.statements)
    && joined.receipt.lines.Keys == sources.Keys
    && (forall name :: name in joined.receipt.lines ==> joined.receipt.lines[name] == Listing(Ran(shards, name)))
    && ReportAgrees(report, joined.receipt.statements, joined.receipt.lines)
  }

  /** What an acceptance says, free of loops: the evidence agrees, and the report's own counters
      reach the threshold. */
  ghost predicate Accepts(shards: seq<Shard>, joined: Shard, sources: Sources, report: Report) {
    Agrees(shards, joined, sources, report) && Reaches(report.linesCovered, report.linesValid)
  }

  lemma UnionListed(union: map<Path, set<int>>, shards: seq<Shard>, sources: Sources, lines: Inventory)
    requires Unites(union, shards, sources)
    ensures lines == (map name | name in union :: Listing(union[name]))
       <==> lines.Keys == sources.Keys && forall name :: name in lines ==> lines[name] == Listing(Ran(shards, name))
  {
  }

  lemma FirstShard(shards: seq<Shard>, joined: Shard, sources: Sources)
    requires shards != []
    ensures (forall shard :: shard in shards ==> ShardOk(shard, sources, joined.receipt.statements))
       <==> (forall shard :: shard in shards ==> ShardOk(shard, sources, shards[0].receipt.statements))
            && shards[0].receipt.statements == joined.receipt.statements
  {
    hide ShardOk;
    assert shards[0] in shards;
    SameStatements(shards[0], sources, joined.receipt.statements);
  }

  method ValidateCombination(shards: seq<Shard>, joined: Shard, sources: Sources, report: Report)
    returns (accepted: bool)
    ensures accepted <==> Accepts(shards, joined, sources, report)
  {
    hide ShardOk, Listing, Unites, Ran, ClassesOk, Cells, Frozen, Covered, RateOk;
    var ok, statements, union := UniteShards(shards, sources);
    if shards != [] {
      FirstShard(shards, joined, sources);
    }
    if !ok {
      return false;
    }
    UnionListed(union, shards, sources, joined.receipt.lines);
    ok := CheckShard(joined, sources);
    if !(ok && joined.receipt.statements == statements) {
      return false;
    }
    if joined.receipt.lines != map name | name in union :: Listing(union[name]) {
      return false;
    }
    InventoryOf(joined, sources);
    var total, covered;
    ok, total, covered := CheckClasses(report.classes, sources, statements, joined.receipt.lines);
    accepted := ok && total > 0 && report.linesValid == total && report.linesCovered == covered
      && RateOk(report.lineRate, covered, total) && Reaches(covered, total);
  }

  lemma InventoryOf(joined: Shard, sources: Sources)
    requires ShardOk(joined, sources, joined.receipt.statements)
    ensures ValidInventory(joined.receipt.statements, sources)
  {
  }

  /** The shard's database records the line: some bitset of a file of that name has its bit. */
  ghost predicate Observed(shard: Shard, sources: Sources, name: Path, n: int) {
    && name in sources && name in Names(shard.data.files, shard.receipt.roots)
    && n in Executed(shard.data, shard.receipt.roots, sources, name)
  }

  lemma ListedIsObserved(shard: Shard, sources: Sources, statements: Inventory, name: Path, n: int)
    requires ShardOk(shard, sources, statements)
    ensures n in Listed(shard.receipt.lines, name) <==> Observed(shard, sources, name, n)
  {
  }

  lemma RanIsObserved(shards: seq<Shard>, sources: Sources, statements: Inventory, name: Path, n: int)
    requires forall shard :: shard in shards ==> ShardOk(shard, sources, statements)
    ensures n in Ran(shards, name) <==> exists shard :: shard in shards && Observed(shard, sources, name, n)
  {
    hide ShardOk, Listed, Observed;
    forall shard | shard in shards
      ensures n in Listed(shard.receipt.lines, name) <==> Observed(shard, sources, name, n)
    {
      ListedIsObserved(shard, sources, statements, name, n);
    }
  }

  /** The frozen statements that ran in at least one shard. */
  ghost function RanStatements(shards: seq<Shard>, sources: Sources, statements: Inventory): set<(Path, int)> {
    set name, n | name in statements && n in statements[name]
                  && (exists shard :: shard in shards && Observed(shard, sources, name, n)) :: (name, n)
  }

  lemma CoveredIsRan(shards: seq<Shard>, sources: Sources, statements: Inventory, lines: Inventory)
    requires forall shard :: shard in shards ==> ShardOk(shard, sources, statements)
    requires statements.Keys <= lines.Keys && forall name :: name in lines ==> lines[name] == Listing(Ran(shards, name))
    ensures Cells(Covered(statements, lines)) == RanStatements(shards, sources, statements)
  {
    hide ShardOk, Observed, Ran;
    forall name, n | name in statements && n in statements[name]
      ensures n in Covered(statements, lines)[name] <==>
                exists shard :: shard in shards && Observed(shard, sources, name, n)
    {
      RanIsObserved(shards, sources, statements, name, n);
      ElementsOf(statements[name]);
    }
    forall name, n | name in statements && n in Covered(statements, lines)[name]
      ensures n in statements[name]
    {
      ElementsOf(statements[name]);
    }
  }

  /** All frozen statements. */
  function FrozenStatements(statements: Inventory): set<(Path, int)> {
    set name, n | name in statements && n in statements[name] :: (name, n)
  }

  lemma FrozenCells(statements: Inventory)
    ensures Cells(Frozen(statements)) == FrozenStatements(statements)
  {
  }

  /**
   The verdict on evidence that agrees: the two counters of the report are the number of frozen
   statements whose bit is set in the database of at least one shard, and the number of all frozen
   statements, and acceptance means exactly that 87 percent of the statements ran.
   */
  lemma Verdict(shards: seq<Shard>, joined: Shard, sources: Sources, report: Report)
    requires Agrees(shards, joined, sources, report)
    ensures joined.receipt.statements.Keys == sources.Keys
    ensures var ran := |RanStatements(shards, sources, joined.receipt.statements)|;
            var all := |FrozenStatements(joined.receipt.statements)|;
            && report.linesCovered == ran && report.linesValid == all > 0
            && (Accepts(shards, joined, sources, report) <==> 100 * ran >= 87 * all)
  {
    hide ShardOk, Ran, ClassesOk, RateOk, Listing, Cells, Covered, Frozen, RanStatements, FrozenStatements;
    InventoryOf(joined, sources);
    CoveredIsRan(shards, sources, joined.receipt.statements, joined.receipt.lines);
    FrozenCells(joined.receipt.statements);
  }

  /** Neither the order of the shard directories nor a repetition matters. */
  lemma ShardOrderIrrelevant(shards: seq<Shard>, others: seq<Shard>, joined: Shard, sources: Sources, report: Report)
    requires Elements(shards) == Elements(others)
    ensures Accepts(shards, joined, sources, report) <==> Accepts(others, joined, sources, report)
  {
    hide ShardOk, ReportAgrees, Listing, Listed;
    assert forall shard :: shard in shards <==> shard in Elements(shards);
    assert forall shard :: shard in others <==> shard in Elements(others);
    forall name | name in sources ensures Ran(shards, name) == Ran(others, name) { }
    assert shards != [] ==> shards[0] in others;
    assert others != [] ==> others[0] in shards;
  }
}
