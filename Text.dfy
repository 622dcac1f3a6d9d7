/** Lines of text: joining with and splitting on the newline character, as
    Python's `"\n".join(...)` and `str.split("\n")` do. */
module Text {

  /** A string that fits on one line. */
  predicate IsLine(s: string) {
    '\n' !in s
  }

  predicate AllLines(lines: seq<string>) {
    forall i :: 0 <= i < |lines| ==> IsLine(lines[i])
  }

  /** The lines separated by single newline characters. */
  function JoinLines(lines: seq<string>): (text: string)
    ensures |lines| >= 1 ==> |text| >= |lines[0]|
  {
    if |lines| == 0 then ""
    else if |lines| == 1 then lines[0]
    else lines[0] + "\n" + JoinLines(lines[1..])
  }

  /** Text made of two one-line pieces is one line. */
  lemma ConcatLine(a: string, b: string)
    requires IsLine(a) && IsLine(b)
    ensures IsLine(a + b)
  {
  }

  /** The pieces of `s` between newline characters; never empty. */
  function SplitLines(s: string): (pieces: seq<string>)
    ensures |pieces| >= 1
    ensures AllLines(pieces)
  {
    if s == [] then [""]
    else
      var rest := SplitLines(s[1..]);
      if s[0] == '\n' then [""] + rest
      else [[s[0]] + rest[0]] + rest[1..]
  }

  /** Splitting text that begins with a line `a` puts `a` in front of the
      first piece of the remainder. */
  lemma {:induction false} SplitLinesPrefix(a: string, t: string)
    requires IsLine(a)
    ensures var rest := SplitLines(t);
            SplitLines(a + t) == [a + rest[0]] + rest[1..]
  {
    if a != [] {
      assert (a + t)[1..] == a[1..] + t;
      assert (a + t)[0] == a[0];
      SplitLinesPrefix(a[1..], t);
      assert [a[0]] + (a[1..] + SplitLines(t)[0]) == a + SplitLines(t)[0];
    } else {
      var rest := SplitLines(t);
      assert a + t == t;
      assert a + rest[0] == rest[0];
      assert rest == [rest[0]] + rest[1..];
    }
  }

  /** Splitting undoes joining, as long as no line holds a newline itself. */
  lemma {:induction false} SplitJoinLines(lines: seq<string>)
    requires |lines| >= 1
    requires AllLines(lines)
    ensures SplitLines(JoinLines(lines)) == lines
  {
    if |lines| == 1 {
      SplitLinesPrefix(lines[0], "");
      assert lines[0] + "" == lines[0];
    } else {
      var tail := JoinLines(lines[1..]);
      SplitJoinLines(lines[1..]);
      assert lines[0] + "\n" + tail == lines[0] + ("\n" + tail);
      SplitLinesPrefix(lines[0], "\n" + tail);
      assert ("\n" + tail)[1..] == tail;
      assert SplitLines("\n" + tail) == [""] + lines[1..];
      assert lines[0] + "" == lines[0];
      assert lines == [lines[0]] + lines[1..];
    }
  }
}
