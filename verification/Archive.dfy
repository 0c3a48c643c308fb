/**
 `_zip_inventory` of hosted_evidence.py, which accepts the members of an artifact archive, and the
 loop of manual_release.py that writes the accepted inventory to disk and reads it back.

 A digest is the content it was taken of.  `fold` is Unicode case folding of one path component;
 `key` is the identity that a filesystem gives to a component.
 */
module Archive {
  import opened Results
  import opened Sorting

  type Content = seq<bv8>

  type Path = seq<string>

  const MAX_MEMBERS := 10000
  const MAX_EXPANDED := 256 * 1024 * 1024

  datatype Kind = Unset | Directory | Regular | Other

  /** A member as the archive lists it; `original` is the name in its header. */
  datatype Member = Member(original: string, filename: string, link: bool, kind: Kind, size: nat, data: Content)

  // ----- Names -----

  function Split(name: string): (path: Path)
    ensures path != []
  {
    if name == "" then [""]
    else if name[0] == '/' then [""] + Split(name[1..])
    else
      var rest := Split(name[1..]);
      [[name[0]] + rest[0]] + rest[1..]
  }

  function Join(path: Path): string
    requires path != []
  {
    if |path| == 1 then path[0] else path[0] + "/" + Join(path[1..])
  }

  /** So different names have different paths. */
  lemma {:induction false} SplitJoin(name: string)
    ensures Join(Split(name)) == name
  {
    if name != "" {
      var rest := Split(name[1..]);
      SplitJoin(name[1..]);
      if name[0] == '/' {
        assert ([""] + rest)[1..] == rest;
        assert "" + "/" + name[1..] == name;
      } else {
        var first := [name[0]] + rest[0];
        var whole := [first] + rest[1..];
        assert whole[1..] == rest[1..];
        if |rest| > 1 {
          assert Join(whole) == [name[0]] + (rest[0] + "/" + Join(rest[1..]));
        }
        assert [name[0]] + name[1..] == name;
      }
    }
  }

  predicate IsDirectory(m: Member) {
    m.filename != "" && m.filename[|m.filename| - 1] == '/'
  }

  function NameOf(m: Member): string {
    if IsDirectory(m) then m.filename[..|m.filename| - 1] else m.filename
  }

  function PathOf(m: Member): (path: Path)
    ensures path != []
  {
    Split(NameOf(m))
  }

  predicate SafeMember(m: Member) {
    && m.original == m.filename
    && (forall part :: part in PathOf(m) ==> part != "" && part != "." && part != "..")
    && '\\' !in NameOf(m) && ':' !in NameOf(m)
    && !m.link
    && (m.kind == Unset || m.kind == if IsDirectory(m) then Directory else Regular)
  }

  // ----- The namespace -----

  function Keyed(path: Path, key: string -> string): (k: Path)
    ensures |k| == |path| && forall i :: 0 <= i < |k| ==> k[i] == key(path[i])
  {
    seq(|path|, i requires 0 <= i < |path| => key(path[i]))
  }

  /** No two members have the same folded path, and none lies below a folded file. */
  predicate Unambiguous(members: seq<Member>, fold: string -> string) {
    && FoldedDistinct(members, fold)
    && forall i, j :: 0 <= i < |members| && 0 <= j < |members| && !IsDirectory(members[i]) ==>
         !(Keyed(PathOf(members[i]), fold) < Keyed(PathOf(members[j]), fold))
  }

  function Expanded(members: seq<Member>): nat {
    if members == [] then 0 else Expanded(members[..|members| - 1]) + members[|members| - 1].size
  }

  predicate Complete(m: Member) {
    IsDirectory(m) || |m.data| == m.size
  }

  predicate Acceptable(members: seq<Member>, fold: string -> string) {
    && |members| <= MAX_MEMBERS && Expanded(members) <= MAX_EXPANDED
    && (forall m :: m in members ==> SafeMember(m) && Complete(m))
    && Unambiguous(members, fold)
  }

  /** The files of the archive by name. */
  predicate Lists(inventory: map<string, Content>, members: seq<Member>) {
    && (forall m :: m in members && !IsDirectory(m) ==> NameOf(m) in inventory && inventory[NameOf(m)] == m.data)
    && forall name :: name in inventory ==> exists m :: m in members && !IsDirectory(m) && NameOf(m) == name
  }

  predicate FoldedDistinct(members: seq<Member>, fold: string -> string) {
    forall i, j :: 0 <= i < j < |members| ==> Keyed(PathOf(members[i]), fold) != Keyed(PathOf(members[j]), fold)
  }

  /** The first loop: safe names, collected folded, refused when one is there already. */
  method CollectNames(members: seq<Member>, fold: string -> string) returns (ok: bool, files: set<Path>)
    ensures ok <==> (forall m :: m in members ==> SafeMember(m)) && FoldedDistinct(members, fold)
    ensures ok ==> forall p :: p in files <==>
              exists i :: 0 <= i < |members| && !IsDirectory(members[i]) && Keyed(PathOf(members[i]), fold) == p
  {
    hide SafeMember, IsDirectory, NameOf, PathOf;
    var names: set<Path> := {};
    files := {};
    for i := 0 to |members|
      invariant forall k :: 0 <= k < i ==> SafeMember(members[k])
      invariant forall j, k :: 0 <= j < k < i ==> Keyed(PathOf(members[j]), fold) != Keyed(PathOf(members[k]), fold)
      invariant forall p :: p in names <==> exists k :: 0 <= k < i && Keyed(PathOf(members[k]), fold) == p
      invariant forall p :: p in files <==>
                  exists k :: 0 <= k < i && !IsDirectory(members[k]) && Keyed(PathOf(members[k]), fold) == p
    {
      var member := members[i];
      assert member in members;
      var folded := Keyed(PathOf(member), fold);
      if !SafeMember(member) || folded in names {
        return false, files;
      }
      names := names + {folded};
      if !IsDirectory(member) {
        files := files + {folded};
      }
    }
    ok := true;
  }

  /** `any(parent in files for parent in path.parents)` */
  method BelowFile(path: Path, files: set<Path>) returns (below: bool)
    requires path != []
    ensures below <==> exists n :: 0 < n < |path| && path[..n] in files
  {
    for n := 1 to |path|
      invariant forall k :: 0 < k < n && k < |path| ==> path[..k] !in files
    {
      if path[..n] in files {
        return true;
      }
    }
    below := false;
  }

  /** `size` is the length of the archive itself. */
  method Inventory(size: nat, maximum: nat, members: seq<Member>, fold: string -> string)
    returns (inventory: Option<map<string, Content>>)
    ensures inventory.Some? <==> size <= maximum && Acceptable(members, fold)
    ensures inventory.Some? ==> Lists(inventory.value, members)
  {
    hide SafeMember, IsDirectory, NameOf, PathOf, Expanded, Split;
    if size > maximum || |members| > MAX_MEMBERS || Expanded(members) > MAX_EXPANDED {
      return None;
    }
    var ok, files := CollectNames(members, fold);
    if !ok {
      return None;
    }
    for i := 0 to |members|
      invariant forall j, k :: 0 <= j < |members| && 0 <= k < i && !IsDirectory(members[j]) ==>
                  !(Keyed(PathOf(members[j]), fold) < Keyed(PathOf(members[k]), fold))
    {
      var path := Keyed(PathOf(members[i]), fold);
      var below := BelowFile(path, files);
      if below {
        var n :| 0 < n < |path| && path[..n] in files;
        var j :| 0 <= j < |members| && !IsDirectory(members[j]) && Keyed(PathOf(members[j]), fold) == path[..n];
        assert Keyed(PathOf(members[j]), fold) < path;
        return None;
      }
      forall j | 0 <= j < |members| && !IsDirectory(members[j])
        ensures !(Keyed(PathOf(members[j]), fold) < path)
      {
        var p := Keyed(PathOf(members[j]), fold);
        assert |p| < |path| ==> path[..|p|] !in files;
      }
    }
    inventory := Read(members, fold);
  }

  /** The last loop: every file is read once and has its declared length. */
  method Read(members: seq<Member>, ghost fold: string -> string) returns (inventory: Option<map<string, Content>>)
    requires FoldedDistinct(members, fold)
    ensures inventory.Some? <==> forall m :: m in members ==> Complete(m)
    ensures inventory.Some? ==> Lists(inventory.value, members)
  {
    hide IsDirectory, NameOf, Keyed;
    var result: map<string, Content> := map[];
    for i := 0 to |members|
      invariant forall k :: 0 <= k < i ==> Complete(members[k])
      invariant forall k :: 0 <= k < i && !IsDirectory(members[k]) ==>
                  NameOf(members[k]) in result && result[NameOf(members[k])] == members[k].data
      invariant forall name :: name in result ==>
                  exists k :: 0 <= k < i && !IsDirectory(members[k]) && NameOf(members[k]) == name
    {
      var member := members[i];
      assert member in members;
      if IsDirectory(member) {
        continue;
      }
      // A name read before would have had the same folded path.
      assert NameOf(member) !in result by {
        assert forall k :: 0 <= k < i ==> Keyed(PathOf(members[k]), fold) != Keyed(PathOf(member), fold);
      }
      if |member.data| != member.size {
        return None;
      }
      result := result[NameOf(member) := member.data];
    }
    inventory := Some(result);
  }

  // ----- Materialisation -----

  datatype Node = Folder | File(data: Content)

  /** A directory tree, by the identity of paths. */
  class Disk {
    var entries: map<Path, Node>

    constructor ()
      ensures entries == map[]
    {
      entries := map[];
    }

    /** `path.parent.mkdir(parents=True, exist_ok=True)` */
    method MakeParents(path: Path) returns (ok: bool)
      requires path != []
      modifies this
      ensures ok <==> forall n :: 0 < n < |path| && path[..n] in old(entries) ==> old(entries)[path[..n]] == Folder
      ensures ok ==> forall n :: 0 < n < |path| ==> path[..n] in entries && entries[path[..n]] == Folder
      ensures ok ==> forall p :: p in old(entries) ==> p in entries && entries[p] == old(entries)[p]
      ensures ok ==> forall p :: p in entries && p !in old(entries) ==> p < path && entries[p] == Folder
    {
      ghost var before := entries;
      for n := 1 to |path|
        invariant forall k :: 0 < k < n && path[..k] in before ==> before[path[..k]] == Folder
        invariant forall k :: 0 < k < n ==> path[..k] in entries && entries[path[..k]] == Folder
        invariant forall p :: p in before ==> p in entries && entries[p] == before[p]
        invariant forall p :: p in entries && p !in before ==> p < path && |p| < n && entries[p] == Folder
      {
        if path[..n] in entries {
          if entries[path[..n]].File? {
            return false;
          }
        } else {
          entries := entries[path[..n] := Folder];
        }
      }
      ok := true;
    }

    /** `path.write_bytes(data)` replaces a file, and fails on a directory. */
    method WriteBytes(path: Path, data: Content) returns (ok: bool)
      modifies this
      ensures ok <==> !(path in old(entries) && old(entries)[path] == Folder)
      ensures entries == if ok then old(entries)[path := File(data)] else old(entries)
    {
      if path in entries && entries[path] == Folder {
        return false;
      }
      entries := entries[path := File(data)];
      ok := true;
    }
  }

  datatype Entry = Entry(path: Path, data: Content)

  /** The tree holds the files, and nothing but them and the directories above them. */
  ghost predicate Holds(entries: map<Path, Node>, files: seq<Entry>) {
    && (forall i :: 0 <= i < |files| ==> Written(entries, files, files[i].path))
    && (forall i, n :: 0 <= i < |files| && 0 < n < |files[i].path| ==>
          files[i].path[..n] in entries && entries[files[i].path[..n]] == Folder)
    && forall p :: p in entries ==> if entries[p].File? then IsFile(files, p) else AboveFile(files, p)
  }

  /** The content of one of the files of that path. */
  ghost predicate Written(entries: map<Path, Node>, files: seq<Entry>, path: Path) {
    path in entries && exists i :: 0 <= i < |files| && files[i].path == path && entries[path] == File(files[i].data)
  }

  ghost predicate IsFile(files: seq<Entry>, p: Path) {
    exists i :: 0 <= i < |files| && files[i].path == p
  }

  ghost predicate AboveFile(files: seq<Entry>, p: Path) {
    exists i :: 0 <= i < |files| && p < files[i].path
  }

  /** No file lies above another one. */
  ghost predicate Nested(files: seq<Entry>) {
    exists i, j :: 0 <= i < |files| && 0 <= j < |files| && files[i].path < files[j].path
  }

  /** Where two files have the same path they have the same content. */
  ghost predicate Consistent(files: seq<Entry>) {
    forall i, j :: 0 <= i < |files| && 0 <= j < |files| && files[i].path == files[j].path ==>
        files[i].data == files[j].data
  }

  lemma HoldsStep(before: map<Path, Node>, made: map<Path, Node>, files: seq<Entry>, f: Entry)
    requires Holds(before, files) && f.path != []
    requires forall n :: 0 < n < |f.path| ==> f.path[..n] in made && made[f.path[..n]] == Folder
    requires forall p :: p in before ==> p in made && made[p] == before[p]
    requires forall p :: p in made && p !in before ==> p < f.path && made[p] == Folder
    requires !(f.path in made && made[f.path] == Folder)
    ensures Holds(made[f.path := File(f.data)], files + [f])
  {
    var after, all := made[f.path := File(f.data)], files + [f];
    assert all[|files|] == f;
    forall i | 0 <= i < |all| ensures Written(after, all, all[i].path) {
      if all[i].path != f.path {
        assert Written(before, files, files[i].path);
        var k :| 0 <= k < |files| && files[k].path == files[i].path && before[files[i].path] == File(files[k].data);
        assert all[k] == files[k];
      }
    }
    forall i, n | 0 <= i < |all| && 0 < n < |all[i].path|
      ensures all[i].path[..n] in after && after[all[i].path[..n]] == Folder
    {
      assert i < |files| ==> all[i] == files[i];
    }
    forall p | p in after ensures if after[p].File? then IsFile(all, p) else AboveFile(all, p) {
      if p == f.path {
        assert all[|files|].path == p;
      } else if p in before {
        if before[p].File? {
          var k :| 0 <= k < |files| && files[k].path == p;
          assert all[k] == files[k];
        } else {
          var k :| 0 <= k < |files| && p < files[k].path;
          assert all[k] == files[k];
        }
      } else {
        assert p < all[|files|].path;
      }
    }
  }

  lemma FileAbove(entries: map<Path, Node>, files: seq<Entry>, i: nat, n: nat)
    requires i < |files| && Holds(entries, files[..i]) && 0 < n < |files[i].path|
    requires files[i].path[..n] in entries && entries[files[i].path[..n]].File?
    ensures Nested(files)
  {
  }

  lemma FileBelow(before: map<Path, Node>, made: map<Path, Node>, files: seq<Entry>, i: nat)
    requires i < |files| && Holds(before, files[..i])
    requires forall p :: p in made && p !in before ==> p < files[i].path
    requires forall p :: p in before ==> p in made && made[p] == before[p]
    requires files[i].path in made && made[files[i].path] == Folder
    ensures Nested(files)
  {
  }

  lemma PrefixIsTake(a: Path, b: Path)
    ensures a < b ==> |a| < |b| && b[..|a|] == a
  {
  }

  lemma HeldNotNested(entries: map<Path, Node>, files: seq<Entry>)
    requires Holds(entries, files) && forall i :: 0 <= i < |files| ==> files[i].path != []
    ensures !Nested(files)
  {
    forall i, j | 0 <= i < |files| && 0 <= j < |files| ensures !(files[i].path < files[j].path) {
      assert Written(entries, files, files[i].path);
      var n := |files[i].path|;
      assert n < |files[j].path| ==> files[j].path[..n] != files[i].path;
      PrefixIsTake(files[i].path, files[j].path);
    }
  }

  lemma ReadBack(entries: map<Path, Node>, files: seq<Entry>)
    requires Holds(entries, files)
    ensures Consistent(files) <==>
              forall i :: 0 <= i < |files| ==> files[i].path in entries && entries[files[i].path] == File(files[i].data)
  {
  }

  /** Writing files into an empty directory and reading all of them back succeeds exactly when no
      file lies above another and files of one path have one content. */
  method Materialize(disk: Disk, files: seq<Entry>) returns (ok: bool)
    requires disk.entries == map[] && forall f :: f in files ==> f.path != []
    modifies disk
    ensures ok <==> !Nested(files) && Consistent(files)
    ensures ok ==> Holds(disk.entries, files)
    ensures ok ==> forall f :: f in files ==> f.path in disk.entries && disk.entries[f.path] == File(f.data)
  {
    hide Holds, Nested, Consistent;
    HoldsNothing(files);
    for i := 0 to |files|
      invariant Holds(disk.entries, files[..i])
    {
      var f := files[i];
      assert f in files;
      ghost var before := disk.entries;
      ok := disk.MakeParents(f.path);
      if !ok {
        ghost var n :| 0 < n < |f.path| && f.path[..n] in before && before[f.path[..n]] != Folder;
        FileAbove(before, files, i, n);
        return;
      }
      ghost var made := disk.entries;
      ok := disk.WriteBytes(f.path, f.data);
      if !ok {
        FileBelow(before, made, files, i);
        return;
      }
      HoldsStep(before, made, files[..i], f);
      assert files[..i + 1] == files[..i] + [f];
    }
    assert files[..|files|] == files;
    HeldNotNested(disk.entries, files);
    ReadBack(disk.entries, files);
    for i := 0 to |files|
      invariant forall k :: 0 <= k < i ==>
                  files[k].path in disk.entries && disk.entries[files[k].path] == File(files[k].data)
    {
      if !(files[i].path in disk.entries && disk.entries[files[i].path] == File(files[i].data)) {
        return false;
      }
    }
    ok := true;
  }

  lemma HoldsNothing(files: seq<Entry>)
    ensures Holds(map[], files[..0])
  {
  }

  // ----- Safety of an accepted inventory -----

  /** The filesystem distinguishes at least what case folding distinguishes. */
  ghost predicate Distinguishes(key: string -> string, fold: string -> string) {
    forall a, b :: key(a) == key(b) ==> fold(a) == fold(b)
  }

  /** The files of the archive as that filesystem sees them, in some order, each once. */
  ghost predicate Seen(files: seq<Entry>, members: seq<Member>, order: seq<nat>, key: string -> string) {
    && |files| == |order|
    && (forall i :: 0 <= i < |order| ==> order[i] < |members| && !IsDirectory(members[order[i]]))
    && (forall i :: 0 <= i < |order| ==>
         files[i] == Entry(Keyed(PathOf(members[order[i]]), key), members[order[i]].data))
    && forall i, j :: 0 <= i < j < |order| ==> order[i] != order[j]
  }

  /**
   On every filesystem that is at most as coarse as case folding, whatever the order, no two files
   of an accepted archive have the same path and none lies above another: each is written once,
   and all of them can be read back.
   */
  lemma AcceptedIsConflictFree(members: seq<Member>, fold: string -> string, key: string -> string, files: seq<Entry>,
      order: seq<nat>)
    requires Acceptable(members, fold) && Distinguishes(key, fold) && Seen(files, members, order, key)
    ensures forall i, j :: 0 <= i < j < |files| ==> files[i].path != files[j].path
    ensures !Nested(files) && Consistent(files)
  {
  }

  /** The whole way: an accepted archive, written in any order, is read back completely. */
  method MaterializeArchive(members: seq<Member>, ghost fold: string -> string, key: string -> string, order: seq<nat>,
      files: seq<Entry>)
    returns (disk: Disk, ok: bool)
    requires Acceptable(members, fold) && Distinguishes(key, fold) && Seen(files, members, order, key)
    ensures fresh(disk) && ok && Holds(disk.entries, files)
    ensures forall i :: 0 <= i < |order| ==>
      var path := Keyed(PathOf(members[order[i]]), key);
      path in disk.entries && disk.entries[path] == File(members[order[i]].data)
  {
    hide Acceptable, Distinguishes, Holds, Nested, Consistent, IsDirectory, PathOf;
    disk := new Disk();
    AcceptedIsConflictFree(members, fold, key, files, order);
    assert forall f :: f in files ==> f.path != [];
    ok := Materialize(disk, files);
    assert forall i :: 0 <= i < |order| ==> files[i] in files;
  }
}
