/** The reverse-import closures of pr_ci.py: who is affected when a module or a fixture changes. */
module Imports {
  import Archive

  /** For each Python path, the modules it imports before or after the change. */
  type Index = map<string, set<string>>

  function DropPrefix(s: string, prefix: string): string {
    if prefix <= s then s[|prefix|..] else s
  }

  function DropSuffix(s: string, suffix: string): string {
    if |suffix| <= |s| && s[|s| - |suffix|..] == suffix then s[..|s| - |suffix|] else s
  }

  function SlashesToDots(s: string): string {
    if s == "" then "" else [if s[0] == '/' then '.' else s[0]] + SlashesToDots(s[1..])
  }

  /** `module_name(path)` */
  function ModuleName(path: string): string {
    DropSuffix(SlashesToDots(DropSuffix(DropPrefix(path, "src/"), ".py")), ".__init__")
  }

  /** The index of the old tree joined with that of the new one. */
  function Union(before: Index, after: Index): Index {
    map p | p in before.Keys + after.Keys ::
      (if p in before then before[p] else {}) + (if p in after then after[p] else {})
  }

  /** A path of the scope whose module is m imports d. */
  predicate ImportsDirectly(index: Index, scope: string -> bool, m: string, d: string) {
    exists p | p in index :: scope(p) && ModuleName(p) == m && d in index[p]
  }

  /** A chain of imports that ends in a changed module. */
  ghost predicate Chain(index: Index, scope: string -> bool, chain: seq<string>, changed: set<string>) {
    && chain != [] && chain[|chain| - 1] in changed
    && forall i :: 0 <= i < |chain| - 1 ==> ImportsDirectly(index, scope, chain[i], chain[i + 1])
  }

  ghost predicate Reaches(index: Index, scope: string -> bool, m: string, changed: set<string>) {
    exists chain :: Chain(index, scope, chain, changed) && chain[0] == m
  }

  function Modules(index: Index): set<string> {
    set p | p in index :: ModuleName(p)
  }

  /** `{module_name(p) for p, deps in all_imports.items() if ... and deps & affected}` */
  function Importers(index: Index, scope: string -> bool, affected: set<string>): set<string> {
    set p | p in index && scope(p) && index[p] * affected != {} :: ModuleName(p)
  }

  lemma ImportersImport(index: Index, scope: string -> bool, affected: set<string>, m: string)
    ensures m in Importers(index, scope, affected) <==> exists d :: d in affected && ImportsDirectly(index, scope, m, d)
  {
    if m in Importers(index, scope, affected) {
      var p :| p in index && scope(p) && index[p] * affected != {} && ModuleName(p) == m;
      var d :| d in index[p] * affected;
      assert ImportsDirectly(index, scope, m, d);
    }
    if d :| d in affected && ImportsDirectly(index, scope, m, d) {
      var p :| p in index && scope(p) && ModuleName(p) == m && d in index[p];
      assert d in index[p] * affected;
    }
  }

  lemma ReachesStep(index: Index, scope: string -> bool, m: string, d: string, changed: set<string>)
    requires ImportsDirectly(index, scope, m, d) && Reaches(index, scope, d, changed)
    ensures Reaches(index, scope, m, changed)
  {
    hide ImportsDirectly;
    var chain :| Chain(index, scope, chain, changed) && chain[0] == d;
    var longer := [m] + chain;
    assert Chain(index, scope, longer, changed) && longer[0] == m;
  }

  /** Nothing outside a set closed under importers reaches into it. */
  lemma {:induction false} ClosedHoldsChain(index: Index, scope: string -> bool, affected: set<string>,
      chain: seq<string>, changed: set<string>)
    requires changed <= affected && Importers(index, scope, affected) <= affected
    requires Chain(index, scope, chain, changed)
    ensures chain[0] in affected
    decreases |chain|
  {
    if |chain| > 1 {
      var tail := chain[1..];
      assert Chain(index, scope, tail, changed) by {
        forall i | 0 <= i < |tail| - 1
          ensures ImportsDirectly(index, scope, tail[i], tail[i + 1])
        {
          assert tail[i] == chain[i + 1] && tail[i + 1] == chain[i + 2];
        }
      }
      ClosedHoldsChain(index, scope, affected, tail, changed);
      ImportersImport(index, scope, affected, chain[0]);
    }
  }

  /**
   The `while True` loop: it ends, and it ends with exactly the modules from which a chain of
   imports, through files of the scope, leads to a changed module.
   */
  method AffectedModules(index: Index, scope: string -> bool, changed: set<string>) returns (affected: set<string>)
    ensures forall m :: m in affected <==> Reaches(index, scope, m, changed)
  {
    hide ModuleName, Reaches, ImportsDirectly;
    affected := changed;
    ChangedReach(index, scope, changed);
    while true
      invariant changed <= affected <= changed + Modules(index)
      invariant forall m :: m in affected ==> Reaches(index, scope, m, changed)
      decreases changed + Modules(index) - affected
    {
      var expanded := affected + Importers(index, scope, affected);
      forall m | m in expanded ensures Reaches(index, scope, m, changed) {
        if m !in affected {
          ImportersImport(index, scope, affected, m);
          var d :| d in affected && ImportsDirectly(index, scope, m, d);
          ReachesStep(index, scope, m, d, changed);
        }
      }
      if expanded == affected { break; }
      affected := expanded;
    }
    FixpointIsReach(index, scope, affected, changed);
  }

  lemma ChangedReach(index: Index, scope: string -> bool, changed: set<string>)
    ensures forall m :: m in changed ==> Reaches(index, scope, m, changed)
  {
    forall m | m in changed ensures Reaches(index, scope, m, changed) {
      assert Chain(index, scope, [m], changed) && [m][0] == m;
    }
  }

  lemma FixpointIsReach(index: Index, scope: string -> bool, affected: set<string>, changed: set<string>)
    requires changed <= affected && Importers(index, scope, affected) <= affected
    ensures forall m :: Reaches(index, scope, m, changed) ==> m in affected
  {
    forall m | Reaches(index, scope, m, changed) ensures m in affected {
      var chain :| Chain(index, scope, chain, changed) && chain[0] == m;
      ClosedHoldsChain(index, scope, affected, chain, changed);
    }
  }

  /** The first closure of `select` walks through every importer outside the tests. */
  function ProductFiles(): string -> bool { (p: string) => !("tests/" <= p) }

  /** The second, for fixtures, walks through the tests. */
  function TestFiles(): string -> bool { (p: string) => "tests/" <= p }

  /** The test files that import an affected module. */
  function OwnedTests(index: Index, affected: set<string>): set<string> {
    set p | p in index && TestFiles()(p) && TestName(p) && index[p] * affected != {}
  }

  /** `Path(p).name.startswith("test_")` */
  function BaseName(path: string): string {
    if path == "" then "" else if '/' in path then BaseName(path[1..]) else path
  }

  predicate TestName(path: string) { "test_" <= BaseName(path) }

  /** The modules that a changed file was and is. */
  function Changed(path: string, old_: string): set<string> {
    {ModuleName(path), ModuleName(old_)}
  }

  /** A test file of either tree that imports a changed module: itself, or, when no maintained rule
      names the interfaces downstream, a module that leads to it. */
  ghost predicate Owns(index: Index, path: string, old_: string, maintained: bool, p: string) {
    && ".py" == Suffix(path, 3) && path in index
    && p in index && "tests/" <= p && TestName(p)
    && exists m :: m in index[p] && (if maintained then m in Changed(path, old_)
                                     else Reaches(index, ProductFiles(), m, Changed(path, old_)))
  }

  function Suffix(s: string, n: nat): string {
    if |s| < n then s else s[|s| - n..]
  }

  /** A change to this file selects exactly the tests of the new tree that own it, and counts as
      owned when a test of either tree does. */
  method SelectOwners(before: Index, after: Index, path: string, old_: string, maintained: bool)
    returns (selected: set<string>, owned: bool)
    ensures forall p :: p in selected <==> p in after && Owns(Union(before, after), path, old_, maintained, p)
    ensures owned <==> exists p :: Owns(Union(before, after), path, old_, maintained, p)
  {
    hide ProductFiles, Reaches, TestName, ModuleName;
    var index := Union(before, after);
    var owners: set<string> := {};
    if ".py" == Suffix(path, 3) && path in index {
      var changed := Changed(path, old_);
      owners := OwnedTests(index, changed);
      if !maintained {
        var affected := AffectedModules(index, ProductFiles(), changed);
        ChangedReach(index, ProductFiles(), changed);
        MoreOwned(index, changed, affected);
        owners := owners + OwnedTests(index, affected);
        OwnersAre(index, affected);
      }
      OwnersAre(index, changed);
    }
    assert forall p :: p in owners <==> Owns(index, path, old_, maintained, p);
    selected := set p | p in owners && p in after;
    owned := owners != {};
    assert owned <==> exists p :: p in owners;
  }

  lemma OwnersAre(index: Index, affected: set<string>)
    ensures forall p :: p in OwnedTests(index, affected) <==>
              p in index && "tests/" <= p && TestName(p) && exists m :: m in index[p] && m in affected
  {
    hide TestName;
    forall p | p in index
      ensures index[p] * affected != {} <==> exists m :: m in index[p] && m in affected
    {
      if m :| m in index[p] && m in affected { assert m in index[p] * affected; }
      if index[p] * affected != {} { var m :| m in index[p] * affected; }
    }
  }

  lemma MoreOwned(index: Index, some: set<string>, affected: set<string>)
    requires forall m :: m in some ==> m in affected
    ensures OwnedTests(index, some) <= OwnedTests(index, affected)
  {
    hide TestName;
    forall p | p in OwnedTests(index, some) ensures p in OwnedTests(index, affected) {
      var m :| m in index[p] * some;
      assert m in index[p] * affected;
    }
  }

  // ----- fixtures

  const PLAIN_NAMES := {"__init__.py", "models.py", "main.py", "app.py", "README.md", "index.md", "main.ts", "main.js",
                        "pyproject.toml", "package.json", "package-lock.json"}

  /** The literals by which a test may name a fixture: its path with or without the leading
      directories, the directory below `tests/fixtures` that holds it, and its own name unless that
      is a common one. */
  function Tokens(path: string): set<string> {
    var parts := Archive.Split(path);
    {path, DropPrefix(path, "tests/"), DropPrefix(path, "tests/fixtures/")}
    + (if |parts| > 3 then {parts[2]} else {})
    + (if BaseName(path) in PLAIN_NAMES then {} else {BaseName(path)})
  }

  /** `python_input(path)`, for a test file. */
  predicate TestInput(path: string) {
    && ".py" == Suffix(path, 3) && "tests/" <= path && !("tests/fixtures/" <= path) && TestName(path)
  }

  /** A file of the tests of either tree that mentions one of the fixture's names. */
  predicate Mentions(index: Index, literals: map<string, set<string>>, fixture: string, p: string) {
    p in index && "tests/" <= p && p in literals && literals[p] * Tokens(fixture) != {}
  }

  function Mentioning(index: Index, literals: map<string, set<string>>, fixture: string): set<string> {
    set p | p in index && Mentions(index, literals, fixture, p) :: ModuleName(p)
  }

  /** The second closure of `select`: a fixture without a rule selects exactly the test files of the
      new tree from which a chain of imports through the tests leads to a file that mentions it. */
  method SelectConsumers(before: Index, after: Index, literals: map<string, set<string>>, fixture: string)
    returns (selected: set<string>)
    ensures forall p :: p in selected <==>
              && p in after && TestInput(p)
              && Reaches(Union(before, after), TestFiles(), ModuleName(p),
                         Mentioning(Union(before, after), literals, fixture))
  {
    hide TestFiles, Reaches, ModuleName, TestInput, Tokens;
    var index := Union(before, after);
    var consumers := AffectedModules(index, TestFiles(), Mentioning(index, literals, fixture));
    selected := set p | p in after && TestInput(p) && ModuleName(p) in consumers;
  }

  /** A module that only the old tree imports still counts. */
  lemma UnionKeepsBoth(before: Index, after: Index, scope: string -> bool, m: string, d: string)
    ensures ImportsDirectly(Union(before, after), scope, m, d)
       <==> ImportsDirectly(before, scope, m, d) || ImportsDirectly(after, scope, m, d)
  {
  }
}
