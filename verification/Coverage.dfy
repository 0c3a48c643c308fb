/**
 core_coverage.py: the coverage of the shards is decoded from each shard's own database, joined,
 and held against the frozen statement inventory and the combined report.

 Paths and names are the lists of their parts.  What depends on one database record at a time
 (schema version, metadata, context, absence of arcs and views) is one field, `standard`.
 */
module Coverage {
  import opened Results
  import opened Sorting
  import opened Bitset

  type Path = seq<string>

  datatype Source = Source(sha256: string, lineCount: nat)

  type Sources = map<Path, Source>

  type Inventory = map<Path, seq<int>>

  /** `characters` is the length of the path as the database spells it. */
  datatype FileRow = FileRow(id: int, path: Path, characters: nat)

  datatype BitRow = BitRow(file: int, context: int, bits: seq<bv8>)

  datatype Database = Database(standard: bool, context: int, files: seq<FileRow>, rows: seq<BitRow>)

  function Bound(source: Source): nat {
    if source.lineCount < 1 then 1 else source.lineCount
  }

  // ----- Names of measured files -----

  predicate ValidRoots(roots: seq<Path>) {
    && 1 <= |roots| <= 2
    && Distinct(roots)
    && forall root :: root in roots ==> root != [] && root[0] == "/" && ".." !in root
  }

  /** The roots under which a path lies. */
  function Under(path: Path, roots: seq<Path>): seq<Path> {
    if roots == [] then [] else (if roots[0] <= path then [roots[0]] else []) + Under(path, roots[1..])
  }

  lemma UnderIsPrefix(path: Path, roots: seq<Path>)
    ensures forall root :: root in Under(path, roots) ==> root <= path
  {
  }

  /** The name below the only root, if there is exactly one. */
  function NameOf(path: Path, roots: seq<Path>): Path {
    var matches := Under(path, roots);
    UnderIsPrefix(path, roots);
    if |matches| != 1 then [] else assert matches[0] in matches; path[|matches[0]|..]
  }

  predicate ValidFile(f: FileRow, roots: seq<Path>, sources: Sources) {
    && f.id > 0 && f.characters <= 4096
    && |Under(f.path, roots)| == 1
    && ".." !in f.path
    && NameOf(f.path, roots) in sources
  }

  function Ids(files: seq<FileRow>): (ids: seq<int>)
    ensures |ids| == |files| && forall i :: 0 <= i < |ids| ==> ids[i] == files[i].id
  {
    seq(|files|, i requires 0 <= i < |files| => files[i].id)
  }

  function Paths(files: seq<FileRow>): (paths: seq<Path>)
    ensures |paths| == |files| && forall i :: 0 <= i < |paths| ==> paths[i] == files[i].path
  {
    seq(|files|, i requires 0 <= i < |files| => files[i].path)
  }

  predicate ValidFiles(files: seq<FileRow>, roots: seq<Path>, sources: Sources) {
    && 0 < |files| <= |sources| * |roots|
    && Distinct(Ids(files)) && Distinct(Paths(files))
    && forall f :: f in files ==> ValidFile(f, roots, sources)
  }

  function Names(files: seq<FileRow>, roots: seq<Path>): set<Path> {
    set f | f in files :: NameOf(f.path, roots)
  }

  // ----- Executed lines -----

  predicate ValidRow(row: BitRow, context: int, files: seq<FileRow>, roots: seq<Path>, sources: Sources) {
    && row.context == context
    && exists f :: f in files && f.id == row.file && NameOf(f.path, roots) in sources
                   && |row.bits| <= Bound(sources[NameOf(f.path, roots)]) / 8 + 1
  }

  predicate ValidRows(rows: seq<BitRow>, context: int, files: seq<FileRow>, roots: seq<Path>, sources: Sources) {
    && (forall i, j :: 0 <= i < j < |rows| ==> rows[i].file != rows[j].file)
    && forall row :: row in rows ==> ValidRow(row, context, files, roots, sources)
  }

  /** The lines that the bitsets of one name carry; two roots may both measure it. */
  function Carried(rows: seq<BitRow>, files: seq<FileRow>, roots: seq<Path>, name: Path): set<int> {
    set f, row, n | f in files && row in rows && f.id == row.file && NameOf(f.path, roots) == name
                    && n in Decoded(row.bits) :: n
  }

  /** Line 0 alone is the module entry of an empty file, not a line. */
  function Cleared(lines: set<int>, source: Source): set<int> {
    if source.lineCount == 0 && lines == {0} then {} else lines
  }

  predicate InBounds(lines: set<int>, source: Source) {
    forall n :: n in lines ==> 0 < n <= Bound(source)
  }

  /** The lines of one source that a database records as executed. */
  function Executed(db: Database, roots: seq<Path>, sources: Sources, name: Path): set<int>
    requires name in sources
  {
    Cleared(Carried(db.rows, db.files, roots, name), sources[name])
  }

  predicate Readable(db: Database, roots: seq<Path>, sources: Sources) {
    && ValidRoots(roots)
    && db.standard
    && ValidFiles(db.files, roots, sources)
    && |db.rows| <= |db.files|
    && ValidRows(db.rows, db.context, db.files, roots, sources)
    && forall name :: name in Names(db.files, roots) && name in sources ==>
         InBounds(Executed(db, roots, sources, name), sources[name])
  }

  /** What `raw_lines` reports: for every measured source the executed lines, ascending. */
  predicate Reports(lines: Inventory, db: Database, roots: seq<Path>, sources: Sources) {
    && lines.Keys == Names(db.files, roots)
    && forall name :: name in lines && name in sources ==> lines[name] == Listing(Executed(db, roots, sources, name))
  }

  lemma NamesAreSources(files: seq<FileRow>, roots: seq<Path>, sources: Sources)
    requires forall f :: f in files ==> ValidFile(f, roots, sources)
    ensures Names(files, roots) <= sources.Keys
  {
  }

  /** The two dictionaries built from the file rows. */
  predicate Indexed(files: map<int, Path>, result: map<Path, set<int>>, rows: seq<FileRow>, roots: seq<Path>) {
    && (forall f :: f in rows ==> f.id in files && files[f.id] == NameOf(f.path, roots) && files[f.id] in result)
    && (forall id :: id in files ==> exists f :: f in rows && f.id == id)
    && (forall name :: name in result ==> result[name] == {} && exists f :: f in rows && NameOf(f.path, roots) == name)
  }

  lemma IndexedStep(files: map<int, Path>, result: map<Path, set<int>>, rows: seq<FileRow>, row: FileRow,
      roots: seq<Path>)
    requires Indexed(files, result, rows, roots)
    requires forall f :: f in rows ==> f.id != row.id
    ensures Indexed(
              files[row.id := NameOf(row.path, roots)], result[NameOf(row.path, roots) := {}], rows + [row], roots)
  {
    hide NameOf;
    var name := NameOf(row.path, roots);
    var more := files[row.id := name];
    var all := rows + [row];
    assert row in all;
    forall id | id in more ensures exists f :: f in all && f.id == id {
      if id != row.id {
        var f :| f in rows && f.id == id;
        assert f in all;
      }
    }
    var grown := result[name := {}];
    forall n | n in grown ensures exists f :: f in all && NameOf(f.path, roots) == n {
      if n != name {
        var f :| f in rows && NameOf(f.path, roots) == n;
        assert f in all;
      }
    }
  }

  lemma OtherIds(rows: seq<FileRow>, i: nat)
    requires i < |rows| && Distinct(Ids(rows))
    ensures forall f :: f in rows[..i] ==> f.id != rows[i].id
  {
  }

  method MeasuredFiles(rows: seq<FileRow>, roots: seq<Path>, sources: Sources)
    returns (ok: bool, files: map<int, Path>, result: map<Path, set<int>>)
    ensures ok <==> ValidFiles(rows, roots, sources)
    ensures ok ==> Indexed(files, result, rows, roots)
  {
    hide ValidFile, NameOf, Indexed, Distinct;
    files, result := map[], map[];
    if !(0 < |rows| <= |sources| * |roots| && Distinct(Ids(rows)) && Distinct(Paths(rows))) {
      return false, files, result;
    }
    NothingIndexed(roots);
    for i := 0 to |rows|
      invariant forall f :: f in rows[..i] ==> ValidFile(f, roots, sources)
      invariant Indexed(files, result, rows[..i], roots)
    {
      if !ValidFile(rows[i], roots, sources) {
        return false, files, result;
      }
      var name := NameOf(rows[i].path, roots);
      OtherIds(rows, i);
      IndexedStep(files, result, rows[..i], rows[i], roots);
      assert rows[..i + 1] == rows[..i] + [rows[i]];
      assert name in result ==> result[name := {}] == result by { EmptySoFar(files, result, rows[..i], roots); }
      files := files[rows[i].id := name];
      if name !in result {
        result := result[name := {}];
      }
    }
    assert rows[..|rows|] == rows;
    ok := true;
  }

  lemma NothingIndexed(roots: seq<Path>)
    ensures Indexed(map[], map[], [], roots)
  {
  }

  lemma EmptySoFar(files: map<int, Path>, result: map<Path, set<int>>, rows: seq<FileRow>, roots: seq<Path>)
    requires Indexed(files, result, rows, roots)
    ensures forall name :: name in result ==> result[name] == {}
  {
  }

  /** The line sets after some of the bitset rows have been merged in. */
  predicate Gathered(result: map<Path, set<int>>, rows: seq<BitRow>, files: seq<FileRow>, roots: seq<Path>) {
    forall name :: name in result ==> result[name] == Carried(rows, files, roots, name)
  }

  lemma GatheredStep(index: map<int, Path>, result: map<Path, set<int>>, rows: seq<BitRow>, row: BitRow,
      files: seq<FileRow>, roots: seq<Path>)
    requires Gathered(result, rows, files, roots)
    requires forall f :: f in files ==> f.id in index && index[f.id] == NameOf(f.path, roots)
    requires row.file in index && index[row.file] in result && exists f :: f in files && f.id == row.file
    ensures Gathered(result[index[row.file] := result[index[row.file]] + Decoded(row.bits)], rows + [row], files, roots)
  {
  }

  /** In terms of the dictionary: a row is valid when its file is listed and its bitset fits. */
  lemma RowByIndex(index: map<int, Path>, result: map<Path, set<int>>, row: BitRow, context: int, files: seq<FileRow>,
      roots: seq<Path>, sources: Sources)
    requires Indexed(index, result, files, roots)
    requires forall f :: f in files ==> NameOf(f.path, roots) in sources
    ensures row.file in index ==> index[row.file] in sources && index[row.file] in result
    ensures ValidRow(row, context, files, roots, sources)
       <==> row.context == context && row.file in index && |row.bits| <= Bound(sources[index[row.file]]) / 8 + 1
  {
  }

  method LineRows(rows: seq<BitRow>, context: int, index: map<int, Path>, start: map<Path, set<int>>,
                  ghost files: seq<FileRow>, ghost roots: seq<Path>, sources: Sources)
    returns (ok: bool, result: map<Path, set<int>>)
    requires Indexed(index, start, files, roots)
    requires forall f :: f in files ==> NameOf(f.path, roots) in sources
    ensures ok <==> ValidRows(rows, context, files, roots, sources)
    ensures ok ==> result.Keys == start.Keys && Gathered(result, rows, files, roots)
  {
    hide ValidRow, NameOf, Decoded, Carried;
    result := start;
    var seen := {};
    NothingGathered(index, start, files, roots);
    for i := 0 to |rows|
      invariant forall k :: 0 <= k < i ==> ValidRow(rows[k], context, files, roots, sources)
      invariant forall j, k :: 0 <= j < k < i ==> rows[j].file != rows[k].file
      invariant forall id :: id in seen <==> exists k :: 0 <= k < i && rows[k].file == id
      invariant result.Keys == start.Keys && Gathered(result, rows[..i], files, roots)
    {
      var row := rows[i];
      RowByIndex(index, start, row, context, files, roots, sources);
      if row.file !in index || row.context != context || row.file in seen {
        return false, result;
      }
      seen := seen + {row.file};
      var name := index[row.file];
      if |row.bits| > Bound(sources[name]) / 8 + 1 {
        return false, result;
      }
      var lines := Decode(row.bits);
      GatheredStep(index, result, rows[..i], row, files, roots);
      assert rows[..i + 1] == rows[..i] + [row];
      result := result[name := result[name] + lines];
    }
    assert rows[..|rows|] == rows;
    ok := true;
  }

  lemma NothingGathered(index: map<int, Path>, result: map<Path, set<int>>, files: seq<FileRow>, roots: seq<Path>)
    requires Indexed(index, result, files, roots)
    ensures Gathered(result, [], files, roots)
  {
  }

  /** The last loop: the entry event of empty files is dropped and every line must be in bounds. */
  method CheckBounds(gathered: map<Path, set<int>>, sources: Sources) returns (ok: bool, lines: Inventory)
    requires gathered.Keys <= sources.Keys
    ensures ok <==> forall name :: name in gathered ==> InBounds(Cleared(gathered[name], sources[name]), sources[name])
    ensures ok ==> lines.Keys == gathered.Keys
    ensures ok ==> forall name :: name in gathered ==> lines[name] == Listing(Cleared(gathered[name], sources[name]))
  {
    hide Listing;
    var todo := gathered.Keys;
    lines := map[];
    while todo != {}
      invariant todo <= gathered.Keys && lines.Keys == gathered.Keys - todo
      invariant forall name :: name in lines ==> InBounds(Cleared(gathered[name], sources[name]), sources[name])
      invariant forall name :: name in lines ==> lines[name] == Listing(Cleared(gathered[name], sources[name]))
      decreases |todo|
    {
      var name :| name in todo;
      var executed := gathered[name];
      if sources[name].lineCount == 0 && executed == {0} {
        executed := {};
      }
      if !(forall n :: n in executed ==> 0 < n <= Bound(sources[name])) {
        return false, lines;
      }
      lines := lines[name := Listing(executed)];
      todo := todo - {name};
    }
    ok := true;
  }

  method RawLines(db: Database, roots: seq<Path>, sources: Sources) returns (r: Option<Inventory>)
    ensures r.Some? <==> Readable(db, roots, sources)
    ensures r.Some? ==> Reports(r.value, db, roots, sources)
  {
    hide ValidFile, ValidRows, NameOf, Indexed, Gathered, Carried, InBounds, Cleared, Listing;
    if !(ValidRoots(roots) && db.standard) {
      return None;
    }
    var ok, files, result := MeasuredFiles(db.files, roots, sources);
    if !ok {
      return None;
    }
    IndexedNames(files, result, db.files, roots, sources);
    if |db.rows| > |db.files| {
      return None;
    }
    ok, result := LineRows(db.rows, db.context, files, result, db.files, roots, sources);
    if !ok {
      return None;
    }
    GatheredNames(result, db, roots, sources);
    var lines;
    ok, lines := CheckBounds(result, sources);
    r := if ok then Some(lines) else None;
  }

  lemma IndexedNames(index: map<int, Path>, result: map<Path, set<int>>, files: seq<FileRow>, roots: seq<Path>,
      sources: Sources)
    requires Indexed(index, result, files, roots)
    requires forall f :: f in files ==> ValidFile(f, roots, sources)
    ensures result.Keys == Names(files, roots) <= sources.Keys
    ensures forall f :: f in files ==> NameOf(f.path, roots) in sources
  {
  }

  lemma GatheredNames(result: map<Path, set<int>>, db: Database, roots: seq<Path>, sources: Sources)
    requires result.Keys <= sources.Keys && Gathered(result, db.rows, db.files, roots)
    ensures forall name :: name in result ==> Cleared(result[name], sources[name]) == Executed(db, roots, sources, name)
  {
  }
}
