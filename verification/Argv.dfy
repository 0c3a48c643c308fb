/**
 The Windows command line that the Git adapter builds, and the C runtime that takes it apart
 again.

 `Quote` and `CommandLine` are the adapter's two loops.  `Parse` follows Microsoft's "Parsing C
 command-line arguments": it is written from that text, not from the adapter, and it is the
 other half of every theorem here.  `doubled` selects between the two published versions of the
 runtime: the newer one reads a pair of quotes inside a quoted part as one literal quote.
 */
module Argv {
  const NUL: char := '\0'

  function Backslashes(n: nat): (s: string)
    ensures |s| == n && forall i :: 0 <= i < n ==> s[i] == '\\'
  {
    seq(n, i => '\\')
  }

  // ----- The adapter -----

  /** The text that closes a quoted argument whose remaining characters are `value`, when
      `slashes` backslashes have been read and not yet written. */
  function Escaped(value: string, slashes: nat): string {
    if value == "" then Backslashes(2 * slashes) + "\""
    else if value[0] == '\\' then Escaped(value[1..], slashes + 1)
    else if value[0] == '"' then Backslashes(2 * slashes + 1) + "\"" + Escaped(value[1..], 0)
    else Backslashes(slashes) + [value[0]] + Escaped(value[1..], 0)
  }

  function Quoted(value: string): string {
    "\"" + Escaped(value, 0)
  }

  function Joined(args: seq<string>): string {
    if args == [] then ""
    else if |args| == 1 then Quoted(args[0])
    else Quoted(args[0]) + " " + Joined(args[1..])
  }

  method Quote(value: string) returns (b: string)
    ensures b == Quoted(value)
  {
    b := "\"";
    var slashes: nat := 0;
    var i := 0;
    while i < |value|
      invariant 0 <= i <= |value|
      invariant b + Escaped(value[i..], slashes) == Quoted(value)
    {
      var c := value[i];
      assert value[i..][1..] == value[i + 1..];
      ghost var before, pending := b, slashes;
      i := i + 1;
      if c == '\\' {
        slashes := slashes + 1;
        continue;
      }
      if c == '"' {
        b := b + Backslashes(slashes * 2 + 1);
        b := b + "\"";
        assert b + Escaped(value[i..], 0) == before + (Backslashes(2 * pending + 1) + "\"" + Escaped(value[i..], 0));
      } else {
        b := b + Backslashes(slashes);
        b := b + [c];
        assert b + Escaped(value[i..], 0) == before + (Backslashes(pending) + [c] + Escaped(value[i..], 0));
      }
      slashes := 0;
    }
    assert value[i..] == "";
    ghost var before := b;
    b := b + Backslashes(slashes * 2);
    b := b + "\"";
    assert b == before + (Backslashes(2 * slashes) + "\"");
  }

  lemma {:induction false} JoinedAppend(args: seq<string>, last: string)
    ensures Joined(args + [last]) == if args == [] then Quoted(last) else Joined(args) + " " + Quoted(last)
  {
    hide Quoted;
    if |args| == 0 {
      assert args + [last] == [last];
    } else {
      JoinedAppend(args[1..], last);
      assert (args + [last])[1..] == args[1..] + [last];
      if |args| == 1 {
        assert args[1..] == [];
      }
    }
  }

  lemma JoinedStep(args: seq<string>, i: nat)
    requires i < |args|
    ensures Joined(args[..i + 1]) == (if i == 0 then "" else Joined(args[..i]) + " ") + Quoted(args[i])
    ensures Joined(args[..i + 1]) != ""
  {
    JoinedAppend(args[..i], args[i]);
    assert args[..i + 1] == args[..i] + [args[i]];
  }

  method CommandLine(args: seq<string>) returns (command: string)
    ensures command == Joined(args)
  {
    hide Joined, Quoted;
    command := "";
    JoinedNone();
    for i := 0 to |args|
      invariant command == Joined(args[..i])
      invariant (command == "") == (i == 0)
    {
      JoinedStep(args, i);
      if |command| != 0 {
        command := command + " ";
      }
      var quoted := Quote(args[i]);
      command := command + quoted;
    }
    assert args[..|args|] == args;
  }

  lemma JoinedNone()
    ensures Joined([]) == ""
  {
  }

  // ----- The C runtime -----

  predicate Blank(c: char) {
    c == ' ' || c == '\t'
  }

  function LeadingSlashes(p: string): (n: nat)
    ensures n <= |p|
    ensures p[..n] == Backslashes(n)
    ensures n < |p| ==> p[n] != '\\'
  {
    if p != "" && p[0] == '\\' then 1 + LeadingSlashes(p[1..]) else 0
  }

  /**
   One argument from the front of `p`, with the input that follows it.  Backslashes count only
   in front of a quote, where each pair stands for one; an unpaired one makes the quote literal,
   any other quote opens or closes a quoted part, and blanks end the argument outside one.
   */
  function Argument(p: string, inQuotes: bool, doubled: bool): (r: (string, string))
    ensures |r.1| <= |p|
    ensures p != "" && (inQuotes || !Blank(p[0])) ==> |r.1| < |p|
    decreases |p|, 1
  {
    var n := LeadingSlashes(p);
    After(n, p[n..], inQuotes, doubled)
  }

  /** The same once the `n` backslashes in front of `q` have been counted. */
  function After(n: nat, q: string, inQuotes: bool, doubled: bool): (r: (string, string))
    ensures |r.1| <= |q|
    ensures q != "" && (inQuotes || !Blank(q[0])) ==> |r.1| < |q|
    decreases |q|, 0
  {
    if q == "" then (Backslashes(n), "")
    else if q[0] == '"' && n % 2 == 1 then
      Prepend(Backslashes(n / 2) + "\"", Argument(q[1..], inQuotes, doubled))
    else if q[0] == '"' && doubled && inQuotes && |q| > 1 && q[1] == '"' then
      Prepend(Backslashes(n / 2) + "\"", Argument(q[2..], inQuotes, doubled))
    else if q[0] == '"' then
      Prepend(Backslashes(n / 2), Argument(q[1..], !inQuotes, doubled))
    else if !inQuotes && Blank(q[0]) then (Backslashes(n), q)
    else
      Prepend(Backslashes(n) + [q[0]], Argument(q[1..], inQuotes, doubled))
  }

  function Prepend(text: string, r: (string, string)): (s: (string, string))
    ensures s.1 == r.1
  {
    (text + r.0, r.1)
  }

  function Arguments(p: string, doubled: bool): seq<string>
    decreases |p|
  {
    if p == "" then []
    else if Blank(p[0]) then Arguments(p[1..], doubled)
    else
      var (a, rest) := Argument(p, false, doubled);
      [a] + Arguments(rest, doubled)
  }

  /** A C string ends at its first NUL. */
  function CString(s: string): (p: string)
    ensures NUL !in p
    ensures NUL !in s ==> p == s
  {
    if s == "" || s[0] == NUL then "" else [s[0]] + CString(s[1..])
  }

  function Parse(line: string, doubled: bool): seq<string> {
    Arguments(CString(line), doubled)
  }

  // ----- What comes back -----

  /** Backslashes before anything but a backslash are counted exactly. */
  lemma {:induction false} SlashesCounted(n: nat, q: string, inQuotes: bool, doubled: bool)
    requires q != "" && q[0] != '\\'
    ensures Argument(Backslashes(n) + q, inQuotes, doubled) == After(n, q, inQuotes, doubled)
  {
    hide After;
    var p := Backslashes(n) + q;
    CountedExactly(n, q);
    assert p[n..] == q;
  }

  lemma {:induction false} CountedExactly(n: nat, q: string)
    requires q != "" && q[0] != '\\'
    ensures LeadingSlashes(Backslashes(n) + q) == n
  {
    if n == 0 {
      assert Backslashes(0) + q == q;
    } else {
      CountedExactly(n - 1, q);
      assert (Backslashes(n) + q)[1..] == Backslashes(n - 1) + q;
    }
  }

  /** A character written behind its backslashes is read as itself inside quotes. */
  lemma CharacterReadsBack(c: char, slashes: nat, more: string, value: string, tail: string, doubled: bool)
    requires c != '\\' && Argument(more, true, doubled) == (value, tail)
    ensures Argument(Backslashes(if c == '"' then 2 * slashes + 1 else slashes) + ([c] + more), true, doubled)
         == (Backslashes(slashes) + [c] + value, tail)
  {
    hide Argument, LeadingSlashes;
    var n := if c == '"' then 2 * slashes + 1 else slashes;
    var q := [c] + more;
    SlashesCounted(n, q, true, doubled);
    assert q[1..] == more && q[0] == c;
  }

  /** The closing quote ends the argument, and half of the backslashes before it are its own. */
  lemma CloseReadsBack(slashes: nat, tail: string, doubled: bool)
    requires tail != "" ==> Blank(tail[0])
    ensures Argument(Backslashes(2 * slashes) + ("\"" + tail), true, doubled) == (Backslashes(slashes), tail)
  {
    hide Argument, LeadingSlashes;
    var q := "\"" + tail;
    SlashesCounted(2 * slashes, q, true, doubled);
    ArgumentEnds(tail, doubled);
    assert q[1..] == tail && q[0] == '"';
    assert Backslashes(slashes) + "" == Backslashes(slashes);
  }

  /** Where the escaped text begins: the closing quote, or the first character behind its backslashes. */
  lemma EscapedBegins(value: string, slashes: nat, tail: string)
    ensures value == "" ==> Escaped(value, slashes) + tail == Backslashes(2 * slashes) + ("\"" + tail)
    ensures value != "" && value[0] != '\\' ==>
              Escaped(value, slashes) + tail
              == Backslashes(if value[0] == '"' then 2 * slashes + 1 else slashes)
                 + ([value[0]] + (Escaped(value[1..], 0) + tail))
    ensures value != "" && value[0] == '\\' ==> Escaped(value, slashes) == Escaped(value[1..], slashes + 1)
  {
  }

  /** Backslashes and characters together are the argument. */
  lemma ValueBegins(value: string, slashes: nat)
    ensures value == "" ==> Backslashes(slashes) == Backslashes(slashes) + value
    ensures value != "" ==> Backslashes(slashes) + [value[0]] + value[1..] == Backslashes(slashes) + value
    ensures value != "" && value[0] == '\\' ==> Backslashes(slashes + 1) + value[1..] == Backslashes(slashes) + value
    ensures Backslashes(0) + value == value
  {
  }

  /** The escaped tail of an argument, read inside quotes, gives back the pending backslashes
      and the characters, and stops where the argument ends. */
  lemma {:induction false} EscapedReadsBack(value: string, slashes: nat, tail: string, doubled: bool)
    requires tail != "" ==> Blank(tail[0])
    ensures Argument(Escaped(value, slashes) + tail, true, doubled) == (Backslashes(slashes) + value, tail)
    decreases |value|
  {
    hide *;
    EscapedBegins(value, slashes, tail);
    ValueBegins(value, slashes);
    if value == "" {
      CloseReadsBack(slashes, tail, doubled);
    } else if value[0] == '\\' {
      EscapedReadsBack(value[1..], slashes + 1, tail, doubled);
    } else {
      EscapedReadsBack(value[1..], 0, tail, doubled);
      ValueBegins(value[1..], 0);
      CharacterReadsBack(value[0], slashes, Escaped(value[1..], 0) + tail, value[1..], tail, doubled);
    }
  }

  lemma ArgumentEnds(tail: string, doubled: bool)
    requires tail != "" ==> Blank(tail[0])
    ensures Argument(tail, false, doubled) == ("", tail)
  {
  }

  lemma QuotedReadsBack(value: string, tail: string, doubled: bool)
    requires tail != "" ==> Blank(tail[0])
    ensures Argument(Quoted(value) + tail, false, doubled) == (value, tail)
  {
    hide Argument, Escaped;
    var q := "\"" + (Escaped(value, 0) + tail);
    SlashesCounted(0, q, false, doubled);
    EscapedReadsBack(value, 0, tail, doubled);
    assert Quoted(value) + tail == Backslashes(0) + q;
    assert q[1..] == Escaped(value, 0) + tail;
    assert Backslashes(0) + value == value;
  }

  lemma {:induction false} JoinedReadsBack(args: seq<string>, doubled: bool)
    ensures Arguments(Joined(args), doubled) == args
  {
    hide Argument;
    if |args| == 1 {
      QuotedReadsBack(args[0], "", doubled);
      assert Quoted(args[0]) + "" == Joined(args);
    } else if |args| > 1 {
      var tail := " " + Joined(args[1..]);
      QuotedReadsBack(args[0], tail, doubled);
      assert Joined(args) == Quoted(args[0]) + tail;
      assert tail[1..] == Joined(args[1..]);
      JoinedReadsBack(args[1..], doubled);
    }
  }

  predicate HasNul(args: seq<string>) {
    exists a :: a in args && NUL in a
  }

  lemma {:induction false} EscapedKeepsNuls(value: string, slashes: nat)
    ensures NUL in Escaped(value, slashes) <==> NUL in value
  {
    if value != "" {
      assert value == [value[0]] + value[1..];
      EscapedKeepsNuls(value[1..], if value[0] == '\\' then slashes + 1 else 0);
    }
  }

  lemma {:induction false} JoinedWithoutNul(args: seq<string>)
    requires !HasNul(args)
    ensures NUL !in Joined(args)
  {
    if args != [] {
      EscapedKeepsNuls(args[0], 0);
      assert args[0] in args;
      if |args| > 1 {
        JoinedWithoutNul(args[1..]);
      }
    }
  }

  lemma {:induction false} ArgumentWithoutNul(p: string, inQuotes: bool, doubled: bool)
    requires NUL !in p
    ensures NUL !in Argument(p, inQuotes, doubled).0 && NUL !in Argument(p, inQuotes, doubled).1
    decreases |p|, 1
  {
    hide After;
    var n := LeadingSlashes(p);
    AfterWithoutNul(n, p[n..], inQuotes, doubled);
  }

  lemma {:induction false} AfterWithoutNul(n: nat, q: string, inQuotes: bool, doubled: bool)
    requires NUL !in q
    ensures NUL !in After(n, q, inQuotes, doubled).0 && NUL !in After(n, q, inQuotes, doubled).1
    decreases |q|, 0
  {
    hide Argument;
    if q != "" {
      if |q| > 1 {
        ArgumentWithoutNul(q[2..], inQuotes, doubled);
      }
      ArgumentWithoutNul(q[1..], inQuotes, doubled);
      ArgumentWithoutNul(q[1..], !inQuotes, doubled);
      assert q[0] in q;
    }
  }

  lemma {:induction false} ArgumentsWithoutNul(p: string, doubled: bool)
    requires NUL !in p
    ensures !HasNul(Arguments(p, doubled))
    decreases |p|
  {
    hide Argument;
    if p != "" {
      if Blank(p[0]) {
        ArgumentsWithoutNul(p[1..], doubled);
      } else {
        ArgumentWithoutNul(p, false, doubled);
        ArgumentsWithoutNul(Argument(p, false, doubled).1, doubled);
      }
    }
  }

  /**
   The child receives exactly the adapter's argument list, whatever it holds (empty strings,
   embedded quotes, trailing backslashes, blanks), under either version of the runtime, if and
   only if no argument holds a NUL.
   */
  lemma RoundTrip(args: seq<string>, doubled: bool)
    ensures Parse(Joined(args), doubled) == args <==> !HasNul(args)
  {
    if !HasNul(args) {
      JoinedWithoutNul(args);
      JoinedReadsBack(args, doubled);
    }
    ArgumentsWithoutNul(CString(Joined(args)), doubled);
  }

  /** So two different lists never share a command line. */
  lemma CommandLineInjective(args: seq<string>, others: seq<string>)
    requires Joined(args) == Joined(others)
    ensures args == others
  {
    JoinedReadsBack(args, true);
    JoinedReadsBack(others, true);
  }
}
