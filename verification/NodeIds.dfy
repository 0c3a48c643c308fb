/** pytest node ids: the file is what stands before the first `::`. */
module NodeIds {

  /** `node.partition("::")[0]` */
  function FileName(node: string): string {
    if node == "" || "::" <= node then "" else [node[0]] + FileName(node[1..])
  }

  predicate HasSeparator(node: string) {
    node != "" && ("::" <= node || HasSeparator(node[1..]))
  }

  /** A name that no separator can begin in, however it goes on. */
  predicate Plain(f: string) {
    (forall i :: 0 <= i < |f| - 1 ==> f[i] != ':' || f[i + 1] != ':') && (f != "" ==> f[|f| - 1] != ':')
  }

  /** A test declared in a file belongs to that file. */
  lemma {:induction false} FileOfTest(f: string, t: string)
    requires Plain(f)
    ensures FileName(f + "::" + t) == f
  {
    var node := f + "::" + t;
    if f == "" {
      assert node == "::" + t;
    } else {
      assert node[1..] == f[1..] + "::" + t;
      assert node[0] == f[0] && node[1] == if |f| > 1 then f[1] else ':';
      FileOfTest(f[1..], t);
    }
  }

  lemma {:induction false} SeparatorIs(node: string)
    ensures HasSeparator(node) <==> exists i :: 0 <= i < |node| - 1 && node[i] == ':' && node[i + 1] == ':'
  {
    if "::" <= node {
      assert node[0] == ':' && node[0 + 1] == ':';
    } else if node != "" {
      SeparatorIs(node[1..]);
      SeparatorLater(node);
    }
  }

  /** An id with a separator is its file, the separator and the rest; one without is a file itself. */
  lemma {:induction false} FileOrTest(node: string)
    ensures if HasSeparator(node) then Plain(FileName(node)) && exists t :: node == FileName(node) + "::" + t
            else FileName(node) == node
  {
    if "::" <= node {
      assert node == "" + "::" + node[2..];
    } else if node != "" {
      var rest := node[1..];
      FileOrTest(rest);
      if HasSeparator(rest) {
        var t :| rest == FileName(rest) + "::" + t;
        assert node == [node[0]] + rest == ([node[0]] + FileName(rest)) + "::" + t;
        assert FileName(rest) == "" ==> rest[0] == ':';
        assert FileName(rest) != "" ==> FileName(rest)[0] == rest[0];
      }
    }
  }

  /** The node is the file itself or is declared in it. */
  ghost predicate Of(node: string, f: string) {
    (node == f && !HasSeparator(f)) || (Plain(f) && exists t :: node == f + "::" + t)
  }

  lemma FileIs(node: string, f: string)
    ensures FileName(node) == f <==> Of(node, f)
  {
    hide Plain;
    FileOrTest(node);
    if Plain(f) {
      if t :| node == f + "::" + t { FileOfTest(f, t); }
    }
  }

  lemma SeparatorLater(node: string)
    requires node != "" && !("::" <= node)
    ensures (exists i :: 0 <= i < |node| - 1 && node[i] == ':' && node[i + 1] == ':')
       <==> exists i :: 0 <= i < |node[1..]| - 1 && node[1..][i] == ':' && node[1..][i + 1] == ':'
  {
    var rest := node[1..];
    if i :| 0 <= i < |node| - 1 && node[i] == ':' && node[i + 1] == ':' {
      assert i > 0;
      assert rest[i - 1] == ':' && rest[i - 1 + 1] == ':';
    }
    if i :| 0 <= i < |rest| - 1 && rest[i] == ':' && rest[i + 1] == ':' {
      assert node[i + 1] == ':' && node[i + 1 + 1] == ':';
    }
  }
}
