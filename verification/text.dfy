/** Line framing of the text a client sends: what bufio's ReadString('\n') returns, the read
    loop that repeats it until end of stream, and strings.TrimSuffix. */
module Text {

  /** A complete line as ReadString('\n') hands it back without error: text up to and
      including the first newline, and no newline before that one. */
  predicate IsLine(s: string) {
    |s| > 0 && s[|s| - 1] == '\n' && '\n' !in s[..|s| - 1]
  }

  /** Result of one ReadString('\n') on the text not read yet. */
  datatype ReadResult =
    | Line(line: string, rest: string)  // err == nil: one complete line and what follows it
    | AtEof(fragment: string)           // err == io.EOF: all that was left, holding no newline

  /** Reads up to and including the first newline; without one, returns everything with EOF. */
  function ReadString(input: string): (r: ReadResult)
    ensures r.Line? ==> IsLine(r.line) && r.line + r.rest == input
    ensures r.AtEof? ==> r.fragment == input && '\n' !in input
    decreases |input|
  {
    if input == [] then AtEof([])
    else if input[0] == '\n' then Line("\n", input[1..])
    else
      match ReadString(input[1..])
      case Line(l, rest) =>
        assert ([input[0]] + l)[..|l|] == [input[0]] + l[..|l| - 1];
        assert [input[0]] + l + rest == input;
        Line([input[0]] + l, rest)
      case AtEof(_) => AtEof(input)
  }

  /** Reading from text that starts with a complete line yields exactly that line. */
  lemma {:induction false} ReadStringOfLine(l: string, rest: string)
    requires IsLine(l)
    ensures ReadString(l + rest) == Line(l, rest)
    decreases |l|
  {
    var input := l + rest;
    if |l| == 1 {
      assert input[0] == '\n';
      assert input[1..] == rest;
    } else {
      var t := l[1..];
      LineTail(l);
      assert input[0] == l[0];
      ReadStringOfLine(t, rest);
      assert input[1..] == t + rest;
      assert [l[0]] + t == l;
    }
  }

  lemma LineTail(l: string)
    requires IsLine(l) && |l| > 1
    ensures l[0] != '\n' && IsLine(l[1..])
  {
    assert l[0] == l[..|l| - 1][0];
    assert l[1..][..|l| - 2] == l[..|l| - 1][1..];
  }

  /** Reading from text without a newline reports end of stream with all of it. */
  lemma ReadStringWithoutNewline(s: string)
    requires '\n' !in s
    ensures ReadString(s) == AtEof(s)
  {
  }

  /** The lines joined back into one text. */
  function Concat(ls: seq<string>): string {
    if ls == [] then [] else ls[0] + Concat(ls[1..])
  }

  lemma ConcatCons(l: string, ls: seq<string>)
    ensures Concat([l] + ls) == l + Concat(ls)
  {
    assert ([l] + ls)[1..] == ls;
  }

  lemma LinesCons(l: string, ls: seq<string>, tail: string)
    requires IsLine(l) && forall i :: 0 <= i < |ls| ==> IsLine(ls[i])
    ensures forall i :: 0 <= i < |[l] + ls| ==> IsLine(([l] + ls)[i])
    ensures Concat([l] + ls) + tail == l + (Concat(ls) + tail)
  {
    ConcatCons(l, ls);
    forall i | 0 <= i < |[l] + ls|
      ensures IsLine(([l] + ls)[i])
    {
      if i > 0 {
        assert ([l] + ls)[i] == ls[i - 1];
      }
    }
  }

  /** The read loop of the connection handler: ReadString('\n') repeated until it reports
      io.EOF. Returns the complete lines in the order read, and the fragment returned with EOF. */
  function ReadLines(input: string): (r: (seq<string>, string))
    ensures forall i :: 0 <= i < |r.0| ==> IsLine(r.0[i])
    ensures '\n' !in r.1
    ensures Concat(r.0) + r.1 == input
    decreases |input|
  {
    match ReadString(input)
    case AtEof(f) => ([], f)
    case Line(l, rest) =>
      var tailLines := ReadLines(rest);
      LinesCons(l, tailLines.0, tailLines.1);
      ([l] + tailLines.0, tailLines.1)
  }

  /** Splitting a text made of complete lines and a newline-free tail gives those lines back. */
  lemma {:induction false} ReadLinesOfConcat(ls: seq<string>, tail: string)
    requires forall i :: 0 <= i < |ls| ==> IsLine(ls[i])
    requires '\n' !in tail
    ensures ReadLines(Concat(ls) + tail) == (ls, tail)
    decreases |ls|
  {
    if ls == [] {
      assert Concat(ls) + tail == tail;
      ReadStringWithoutNewline(tail);
    } else {
      var rest := Concat(ls[1..]) + tail;
      assert Concat(ls) + tail == ls[0] + rest;
      ReadStringOfLine(ls[0], rest);
      ReadLinesOfConcat(ls[1..], tail);
      assert [ls[0]] + ls[1..] == ls;
    }
  }

  predicate HasSuffix(s: string, suffix: string) {
    |suffix| <= |s| && s[|s| - |suffix|..] == suffix
  }

  /** strings.TrimSuffix: drops one copy of suffix from the end of s if s ends with it. */
  function TrimSuffix(s: string, suffix: string): (r: string)
    ensures HasSuffix(s, suffix) ==> r + suffix == s
    ensures !HasSuffix(s, suffix) ==> r == s
  {
    if HasSuffix(s, suffix) then s[..|s| - |suffix|] else s
  }
}
