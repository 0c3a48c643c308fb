/** What the names of an archive's members are: their parts, and why the accepted ones stay below the
    directory they are written to. */
module ArchiveNames {
  import opened Archive

  predicate NoSlash(part: string) { '/' !in part }

  lemma {:induction false} PartsOfName(name: string)
    ensures forall part :: part in Split(name) ==> NoSlash(part)
  {
    if name != "" {
      PartsOfName(name[1..]);
      var rest := Split(name[1..]);
      assert rest[0] in rest;
    }
  }

  lemma {:induction false} SplitPart(part: string)
    requires NoSlash(part)
    ensures Split(part) == [part]
  {
    if part != "" {
      SplitPart(part[1..]);
      assert part == [part[0]] + part[1..];
    }
  }

  lemma {:induction false} SplitFirst(part: string, rest: string)
    requires NoSlash(part)
    ensures Split(part + "/" + rest) == [part] + Split(rest)
  {
    var s := part + "/" + rest;
    if part == "" {
      assert s[1..] == rest;
    } else {
      SplitFirst(part[1..], rest);
      assert s[1..] == part[1..] + "/" + rest;
      assert part == [part[0]] + part[1..];
    }
  }

  /** The path of a name is the one list of parts without separators that join to it. */
  lemma {:induction false} JoinSplit(path: Path)
    requires path != [] && forall part :: part in path ==> NoSlash(part)
    ensures Split(Join(path)) == path
  {
    assert path[0] in path;
    if |path| == 1 {
      SplitPart(path[0]);
    } else {
      JoinSplit(path[1..]);
      SplitFirst(path[0], Join(path[1..]));
    }
  }

  /** The directory or file that a relative path leads to from a base directory. */
  function Resolved(base: Path, path: Path): Path
    decreases |path|
  {
    if path == [] then base
    else if path[0] == "" || path[0] == "." then Resolved(base, path[1..])
    else if path[0] == ".." then Resolved(if base == [] then [] else base[..|base| - 1], path[1..])
    else Resolved(base + [path[0]], path[1..])
  }

  predicate Plain(part: string) {
    part != "" && part != "." && part != ".."
  }

  lemma {:induction false} PlainResolves(base: Path, path: Path)
    requires forall part :: part in path ==> Plain(part)
    ensures Resolved(base, path) == base + path
    decreases |path|
  {
    if path != [] {
      assert path[0] in path;
      PlainResolves(base + [path[0]], path[1..]);
      assert base + [path[0]] + path[1..] == base + path;
    }
  }

  lemma {:induction false} ResolvedShort(base: Path, path: Path)
    ensures |Resolved(base, path)| <= |base| + |path|
    ensures |Resolved(base, path)| == |base| + |path| ==> forall part :: part in path ==> Plain(part)
    decreases |path|
  {
    if path != [] {
      var next := if path[0] == "" || path[0] == "." then base
                  else if path[0] == ".." then if base == [] then [] else base[..|base| - 1]
                  else base + [path[0]];
      ResolvedShort(next, path[1..]);
      assert path == [path[0]] + path[1..];
    }
  }

  /** From every directory the path leads to itself below that directory. */
  ghost predicate StaysBelow(path: Path) {
    forall base :: Resolved(base, path) == base + path
  }

  lemma StaysBelowIff(path: Path)
    ensures StaysBelow(path) <==> forall part :: part in path ==> Plain(part)
  {
    if StaysBelow(path) {
      ResolvedShort([], path);
      assert Resolved([], path) == [] + path;
    }
    if forall part :: part in path ==> Plain(part) {
      forall base ensures Resolved(base, path) == base + path {
        PlainResolves(base, path);
      }
    }
  }

  predicate EndsInSlash(name: string) {
    name != "" && name[|name| - 1] == '/'
  }

  /**
   A member is safe exactly when its name was not rewritten, leads from every directory to itself
   below it, has no other separator or drive, and is a directory exactly when it says so.
   */
  lemma SafeExactly(m: Member)
    ensures m.filename == NameOf(m) + if EndsInSlash(m.filename) then "/" else ""
    ensures EndsInSlash(m.filename) <==> IsDirectory(m)
    ensures SafeMember(m) <==>
              && m.original == m.filename && StaysBelow(Split(NameOf(m)))
              && '\\' !in NameOf(m) && ':' !in NameOf(m) && !m.link
              && (m.kind == Unset || m.kind == if EndsInSlash(m.filename) then Directory else Regular)
  {
    hide Split, StaysBelow;
    StaysBelowIff(PathOf(m));
  }

  lemma {:induction false} ExpandedAdds(some: seq<Member>, more: seq<Member>)
    ensures Expanded(some + more) == Expanded(some) + Expanded(more)
    ensures forall m :: Expanded([m]) == m.size
  {
    forall m ensures Expanded([m]) == m.size {
      assert [m][..0] == [];
    }
    if more == [] {
      assert some + more == some;
    } else {
      var n := |more| - 1;
      ExpandedAdds(some, more[..n]);
      assert (some + more)[..|some| + n] == some + more[..n];
    }
  }

  /** The bytes of all files. */
  function FileBytes(members: seq<Member>): nat {
    if members == [] then 0
    else
      var last := members[|members| - 1];
      FileBytes(members[..|members| - 1]) + if EndsInSlash(last.filename) then 0 else |last.data|
  }

  /** Whatever lengths an accepted archive declares, its files have them, and together they stay within
      256 MiB. */
  lemma {:induction false} FilesAreBounded(members: seq<Member>)
    requires forall m :: m in members ==> Complete(m)
    ensures FileBytes(members) <= Expanded(members)
    ensures forall m :: m in members && !EndsInSlash(m.filename) ==> |m.data| == m.size
  {
    if members != [] {
      var n := |members| - 1;
      FilesAreBounded(members[..n]);
      assert members[n] in members;
      assert members == members[..n] + [members[n]];
    }
  }

  lemma AcceptedIsBounded(members: seq<Member>, fold: string -> string)
    requires Acceptable(members, fold)
    ensures |members| <= 10_000 && FileBytes(members) <= 268_435_456
    ensures forall m :: m in members && !EndsInSlash(m.filename) ==> |m.data| == m.size
  {
    hide SafeMember, Unambiguous, FileBytes, Expanded, Complete;
    FilesAreBounded(members);
  }
}
