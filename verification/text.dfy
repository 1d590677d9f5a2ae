/**
 Joining output lines with a separator, as the disassembler assembles its
 result, and splitting text at a separator, the inverse the line-oriented
 properties are stated with.
 */
module Text {

  /** The lines in order with `sep` between each two and after none. */
  function Join(lines: seq<string>, sep: char): (s: string)
    ensures |lines| == 0 ==> s == ""
    ensures |lines| > 0 ==> |s| >= |lines[|lines| - 1]| && s[|s| - |lines[|lines| - 1]|..] == lines[|lines| - 1]
  {
    if |lines| == 0 then ""
    else if |lines| == 1 then lines[0]
    else
      var rest := Join(lines[1..], sep);
      var s := lines[0] + [sep] + rest;
      assert s[|s| - |rest|..] == rest;
      s
  }

  /** The position of the first `c` in `s`. */
  function IndexOf(s: string, c: char): (k: nat)
    requires c in s
    ensures k < |s| && s[k] == c && c !in s[..k]
  {
    if s[0] == c then 0 else 1 + IndexOf(s[1..], c)
  }

  /** The pieces of `s` between occurrences of `sep`; always at least one. */
  function Split(s: string, sep: char): (parts: seq<string>)
    ensures |parts| > 0
    decreases |s|
  {
    if sep !in s then [s]
    else
      var k := IndexOf(s, sep);
      [s[..k]] + Split(s[k + 1..], sep)
  }

  /** Splitting joined lines gives the lines back when there is at least one
      and none contains the separator. */
  lemma {:induction false} SplitJoin(lines: seq<string>, sep: char)
    requires |lines| > 0
    requires forall i :: 0 <= i < |lines| ==> sep !in lines[i]
    ensures Split(Join(lines, sep), sep) == lines
  {
    if |lines| > 1 {
      var tail := lines[1..];
      var rest := Join(tail, sep);
      assert forall i :: 0 <= i < |tail| ==> sep !in tail[i] by {
        assert forall i :: 0 <= i < |tail| ==> tail[i] == lines[i + 1];
      }
      SplitJoin(tail, sep);
      assert Join(lines, sep) == lines[0] + [sep] + rest;
      SplitAfterPrefix(lines[0], sep, rest);
      assert lines == [lines[0]] + tail;
    }
  }

  /** Splitting text that starts with a separator-free piece and a separator
      yields that piece first. */
  lemma SplitAfterPrefix(prefix: string, sep: char, rest: string)
    requires sep !in prefix
    ensures Split(prefix + [sep] + rest, sep) == [prefix] + Split(rest, sep)
  {
    var s := prefix + [sep] + rest;
    assert s[|prefix|] == sep;
    IndexOfAfterPrefix(prefix, sep, rest);
    assert s[..|prefix|] == prefix;
    assert s[|prefix| + 1..] == rest;
  }

  /** The first separator after a separator-free prefix is the one that
      ends the prefix. */
  lemma {:induction false} IndexOfAfterPrefix(prefix: string, sep: char, rest: string)
    requires sep !in prefix
    ensures IndexOf(prefix + [sep] + rest, sep) == |prefix|
  {
    if |prefix| > 0 {
      assert (prefix + [sep] + rest)[1..] == prefix[1..] + [sep] + rest;
      IndexOfAfterPrefix(prefix[1..], sep, rest);
    }
  }

  /** A join of lines whose last is non-empty and free of the separator does
      not end with the separator. */
  lemma NoTrailingSeparator(lines: seq<string>, sep: char)
    requires |lines| > 0
    requires |lines[|lines| - 1]| > 0 && sep !in lines[|lines| - 1]
    ensures |Join(lines, sep)| > 0
    ensures Join(lines, sep)[|Join(lines, sep)| - 1] != sep
  {
    var s := Join(lines, sep);
    var last := lines[|lines| - 1];
    assert s[|s| - |last|..] == last;
    assert s[|s| - 1] == last[|last| - 1];
  }
}
