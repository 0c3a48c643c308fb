/** What `module_name` and `Path(p).name` say of a path given by its parts. */
module ModuleNames {
  import opened Archive
  import opened Imports

  /** A part of a path to an importable file, without its suffix. */
  predicate Identifier(part: string) {
    part != "" && '.' !in part && '/' !in part
  }

  predicate Identifiers(path: Path) {
    path != [] && forall part :: part in path ==> Identifier(part)
  }

  /** The name by which `import` knows the path. */
  function Dotted(path: Path): string
    requires path != []
  {
    if |path| == 1 then path[0] else path[0] + "." + Dotted(path[1..])
  }

  lemma {:induction false} SlashesToDotsAdd(a: string, b: string)
    ensures SlashesToDots(a + b) == SlashesToDots(a) + SlashesToDots(b)
  {
    if a == "" {
      assert a + b == b;
    } else {
      SlashesToDotsAdd(a[1..], b);
      assert (a + b)[1..] == a[1..] + b;
    }
  }

  lemma {:induction false} NoSlashes(a: string)
    requires '/' !in a
    ensures SlashesToDots(a) == a
  {
    if a != "" {
      NoSlashes(a[1..]);
      assert a == [a[0]] + a[1..];
    }
  }

  lemma {:induction false} SlashesAreDots(path: Path)
    requires Identifiers(path)
    ensures SlashesToDots(Join(path)) == Dotted(path)
  {
    assert path[0] in path;
    NoSlashes(path[0]);
    if |path| > 1 {
      SlashesAreDots(path[1..]);
      SlashesToDotsAdd(path[0] + "/", Join(path[1..]));
      SlashesToDotsAdd(path[0], "/");
      assert SlashesToDots("/") == ".";
    }
  }

  lemma SuffixDropped(s: string, suffix: string)
    ensures DropSuffix(s + suffix, suffix) == s
  {
  }

  lemma PrefixDropped(s: string, prefix: string)
    ensures DropPrefix(prefix + s, prefix) == s
  {
  }

  lemma {:induction false} DottedLast(path: Path, last: string)
    requires path != []
    ensures Dotted(path + [last]) == Dotted(path) + "." + last
  {
    if |path| > 1 {
      DottedLast(path[1..], last);
      assert (path + [last])[1..] == path[1..] + [last];
    } else {
      assert (path + [last])[1..] == [last];
    }
  }

  lemma LastDot(a: string, b: string, c: string, d: string)
    requires a + "." + b == c + "." + d && '.' !in b && '.' !in d
    ensures a == c && b == d
  {
    var s, t := a + "." + b, c + "." + d;
    assert s[|a|] == '.' && t[|c|] == '.';
    assert forall i :: |a| < i < |s| ==> s[i] == b[i - |a| - 1];
    assert forall i :: |c| < i < |t| ==> t[i] == d[i - |c| - 1];
    assert |a| == |c|;
    assert a == s[..|a|] == t[..|c|] == c;
    assert b == s[|a| + 1..] == t[|c| + 1..] == d;
  }

  /** Only a last part `__init__` makes a dotted name end like a package. */
  lemma PackageEnding(front: string, last: string)
    requires '.' !in last
    ensures DropSuffix(front + "." + last, ".__init__") == if last == "__init__" then front else front + "." + last
  {
    var s, init := front + "." + last, "." + "__init__";
    assert init == ".__init__";
    if last == "__init__" {
      assert s == front + init;
    } else if |init| <= |s| && s[|s| - |init|..] == init {
      var rest := s[..|s| - |init|];
      assert s == rest + init == rest + "." + "__init__";
      LastDot(front, last, rest, "__init__");
    }
  }

  lemma NoDotNoEnding(s: string)
    requires '.' !in s
    ensures DropSuffix(s, ".__init__") == s
  {
    if |s| >= 9 {
      assert s[|s| - 9] in s;
    }
  }

  /** The dotted name of a file, which is that of its directory when the file is `__init__`. */
  function Named(path: Path): string
    requires path != []
  {
    if |path| > 1 && path[|path| - 1] == "__init__" then Dotted(path[..|path| - 1]) else Dotted(path)
  }

  lemma DottedFile(path: Path)
    requires Identifiers(path)
    ensures DropSuffix(SlashesToDots(DropSuffix(Join(path) + ".py", ".py")), ".__init__") == Named(path)
  {
    hide DropSuffix;
    SuffixDropped(Join(path), ".py");
    SlashesAreDots(path);
    if |path| == 1 {
      assert path[0] in path;
      NoDotNoEnding(path[0]);
    } else {
      var front, last := path[..|path| - 1], path[|path| - 1];
      assert path == front + [last] && last in path;
      DottedLast(front, last);
      PackageEnding(Dotted(front), last);
    }
  }

  lemma FirstPart(path: Path)
    requires Identifiers(path)
    ensures path != [] && '/' !in path[0]
    ensures Join(path) == if |path| == 1 then path[0] else path[0] + "/" + Join(path[1..])
  {
    assert Identifier(path[0]);
  }

  lemma BelowSource(path: Path, rest: string)
    requires Identifiers(path) && '/' !in rest
    ensures "src/" <= Join(path) + rest <==> |path| > 1 && path[0] == "src"
  {
    hide *;
    FirstPart(path);
    if |path| == 1 {
      NoSlashAtAll(Join(path) + rest);
    } else {
      var tail := Join(path[1..]);
      Regroup(path[0] + "/", tail, rest);
      FirstSlash(path[0], tail + rest);
    }
  }

  lemma Regroup(a: string, b: string, c: string)
    ensures a + b + c == a + (b + c)
  {
  }

  lemma NoSlashAtAll(s: string)
    requires '/' !in s
    ensures !("src/" <= s)
  {
    assert "src/"[3] == '/' && forall i :: 0 <= i < |s| ==> s[i] in s;
  }

  lemma FirstSlash(first: string, rest: string)
    requires '/' !in first
    ensures "src/" <= first + "/" + rest <==> first == "src"
  {
    var s := first + "/" + rest;
    assert s[|first|] == '/' && s[..|first|] == first;
    if "src/" <= s {
      assert s[0] == 's' && s[1] == 'r' && s[2] == 'c' && s[3] == '/';
      assert |first| == 3;
    }
  }

  /**
   The module of a Python file: its parts joined by dots, without a leading `src` and without a last
   `__init__`.
   */
  lemma ModuleOf(path: Path)
    requires Identifiers(path)
    ensures ModuleName("src/" + Join(path) + ".py") == Named(path)
    ensures !(|path| > 1 && path[0] == "src") ==> ModuleName(Join(path) + ".py") == Named(path)
  {
    hide DropSuffix, DropPrefix, SlashesToDots, Named;
    DottedFile(path);
    PrefixDropped(Join(path) + ".py", "src/");
    assert "src/" + (Join(path) + ".py") == "src/" + Join(path) + ".py";
    if !(|path| > 1 && path[0] == "src") {
      BelowSource(path, ".py");
      NothingDropped(Join(path) + ".py", "src/");
    }
  }

  lemma NothingDropped(s: string, prefix: string)
    requires !(prefix <= s)
    ensures DropPrefix(s, prefix) == s
  {
  }

  lemma {:induction false} LastName(front: string, last: string)
    requires '/' !in last
    ensures BaseName(front + "/" + last) == last
  {
    var s := front + "/" + last;
    assert s[|front|] == '/' && '/' in s;
    if front == "" {
      assert s[1..] == last;
    } else {
      LastName(front[1..], last);
      assert s[1..] == front[1..] + "/" + last;
    }
  }

  /** A file counts as a test by its own name, whatever directories it is in. */
  lemma TestByName(front: string, last: string)
    requires '/' !in last
    ensures TestName(front + "/" + last) <==> |last| >= 5 && last[..5] == "test_"
    ensures TestName(last) <==> |last| >= 5 && last[..5] == "test_"
  {
    LastName(front, last);
  }
}
