/**
 * The parts of Python's `str` that the cleaner and the mail processor use:
 * `isspace` on one character, `strip()`, `split("\n")` and `"\n".join(...)`.
 */
module PyStr {

  /** The characters Python's argument-less `str.strip()` removes. */
  predicate IsSpace(c: char) {
    var n := c as int;
    n == 0x20 || 0x09 <= n <= 0x0d || 0x1c <= n <= 0x1f || n == 0x85 || n == 0xa0 ||
    n == 0x1680 || 0x2000 <= n <= 0x200a || n == 0x2028 || n == 0x2029 ||
    n == 0x202f || n == 0x205f || n == 0x3000
  }

  /** Neither the first nor the last character is whitespace. */
  predicate IsStripped(s: string) {
    s == [] || (!IsSpace(s[0]) && !IsSpace(s[|s| - 1]))
  }

  /** `s.lstrip()`: the suffix left after the maximal leading run of whitespace. */
  function TrimStart(s: string): (r: string)
    ensures |r| <= |s| && r == s[|s| - |r|..]
    ensures r == [] || !IsSpace(r[0])
    ensures forall i :: 0 <= i < |s| - |r| ==> IsSpace(s[i])
    decreases |s|
  {
    if s == [] then []
    else if IsSpace(s[0]) then TrimStart(s[1..])
    else s
  }

  /** `s.rstrip()`: the prefix left after the maximal trailing run of whitespace. */
  function TrimEnd(s: string): (r: string)
    ensures |r| <= |s| && r == s[..|r|]
    ensures r == [] || !IsSpace(r[|r| - 1])
    ensures forall i :: |r| <= i < |s| ==> IsSpace(s[i])
    decreases |s|
  {
    if s == [] then []
    else if IsSpace(s[|s| - 1]) then TrimEnd(s[..|s| - 1])
    else s
  }

  /** `s[i..j]` is `s` with only whitespace cut off before `i` and from `j` on. */
  predicate TrimmedAt(s: string, i: int, j: int) {
    && 0 <= i <= j <= |s|
    && (forall k :: 0 <= k < i ==> IsSpace(s[k]))
    && (forall k :: j <= k < |s| ==> IsSpace(s[k]))
  }

  /** `s.strip()`: leading and trailing whitespace cut off, nothing else. */
  function Strip(s: string): (r: string)
    ensures IsStripped(r)
    ensures |r| <= |s|
    ensures forall c :: c in r ==> c in s
    ensures IsStripped(s) ==> r == s
  {
    var t := TrimStart(s);
    var r := TrimEnd(t);
    assert forall c :: c in r ==> c in t;
    assert r != [] ==> !IsSpace(r[0]) by {
      if r != [] {
        assert r[0] == t[0];
      }
    }
    r
  }

  /** The strip is a slice of its input with only whitespace cut off, and only at the two ends. */
  lemma StripOnlyEnds(s: string)
    ensures exists i, j :: TrimmedAt(s, i, j) && Strip(s) == s[i..j]
  {
    var t := TrimStart(s);
    var r := Strip(s);
    assert r == TrimEnd(t);
    var i := |s| - |t|;
    var j := i + |r|;
    assert t == s[i..];
    assert r == t[..|r|];
    assert r == s[i..j];
    forall k | j <= k < |s|
      ensures IsSpace(s[k])
    {
      assert s[k] == t[k - i];
    }
    assert TrimmedAt(s, i, j);
  }

  /** A leading whitespace character makes no difference to the strip. */
  lemma StripSkipsSpace(s: string)
    requires s != [] && IsSpace(s[0])
    ensures Strip(s) == Strip(s[1..])
  {
    assert TrimStart(s) == TrimStart(s[1..]);
  }

  /** Stripping twice is stripping once. */
  lemma StripIdempotent(s: string)
    ensures Strip(Strip(s)) == Strip(s)
  {
  }

  /** `s.split("\n")`: never empty, and no piece holds a newline. */
  function Split(s: string): (lines: seq<string>)
    ensures |lines| >= 1
    ensures forall i :: 0 <= i < |lines| ==> '\n' !in lines[i]
    decreases |s|
  {
    if s == [] then [[]]
    else
      var rest := Split(s[1..]);
      if s[0] == '\n' then [[]] + rest
      else [[s[0]] + rest[0]] + rest[1..]
  }

  /** `"\n".join(lines)`: the lines in order with a newline between each two. */
  function Join(lines: seq<string>): string
    requires |lines| >= 1
    decreases |lines|
  {
    if |lines| == 1 then lines[0]
    else lines[0] + "\n" + Join(lines[1..])
  }

  /** The join starts with the first line and holds a separator between each two lines. */
  lemma {:induction false} JoinShape(lines: seq<string>)
    requires |lines| >= 1
    ensures lines[0] <= Join(lines)
    ensures |Join(lines)| >= |lines| - 1 + |lines[0]|
    decreases |lines|
  {
    if |lines| > 1 {
      JoinShape(lines[1..]);
      assert Join(lines) == lines[0] + ("\n" + Join(lines[1..]));
    }
  }

  /** Joining the pieces of a split gives back the original text. */
  lemma {:induction false} JoinSplit(s: string)
    ensures Join(Split(s)) == s
    decreases |s|
  {
    if s != [] {
      JoinSplit(s[1..]);
      var rest := Split(s[1..]);
      if s[0] != '\n' {
        if |rest| > 1 {
          assert Split(s)[1..] == rest[1..];
        }
      }
    }
  }

  /** Splitting text that starts with a newline-free piece `a`. */
  lemma {:induction false} SplitPrefix(a: string, t: string)
    requires '\n' !in a
    ensures Split(a + t) == [a + Split(t)[0]] + Split(t)[1..]
    decreases |a|
  {
    var ts := Split(t);
    if a == [] {
      assert a + t == t;
      assert a + ts[0] == ts[0];
      assert ts == [ts[0]] + ts[1..];
    } else {
      assert (a + t)[1..] == a[1..] + t;
      SplitPrefix(a[1..], t);
      var rest := Split(a[1..] + t);
      assert rest[0] == a[1..] + ts[0];
      assert [a[0]] + rest[0] == a + ts[0];
      assert rest[1..] == ts[1..];
    }
  }

  /** Splitting joined newline-free lines gives back the lines. */
  lemma {:induction false} SplitJoin(lines: seq<string>)
    requires |lines| >= 1
    requires forall i :: 0 <= i < |lines| ==> '\n' !in lines[i]
    ensures Split(Join(lines)) == lines
    decreases |lines|
  {
    if |lines| == 1 {
      SplitPrefix(lines[0], []);
      assert lines[0] + [] == lines[0];
    } else {
      SplitJoin(lines[1..]);
      var j := Join(lines[1..]);
      assert lines[0] + "\n" + j == lines[0] + ("\n" + j);
      SplitPrefix(lines[0], "\n" + j);
      assert ("\n" + j)[1..] == j;
      assert Split("\n" + j) == [[]] + Split(j);
      assert lines[0] + [] == lines[0];
      assert Join(lines) == lines[0] + ("\n" + j);
      assert lines == [lines[0]] + lines[1..];
    }
  }

  /** Appending a newline to text opens a new, empty last line. */
  lemma {:induction false} SplitSnocNewline(p: string)
    ensures Split(p + "\n") == Split(p) + [[]]
    decreases |p|
  {
    if p == [] {
      assert p + "\n" == "\n";
    } else {
      assert (p + "\n")[1..] == p[1..] + "\n";
      SplitSnocNewline(p[1..]);
      var lq := Split(p[1..]);
      if p[0] != '\n' {
        assert Split(p + "\n") == [[p[0]] + lq[0]] + (lq[1..] + [[]]);
      }
    }
  }

  /** A single character other than a newline is one line. */
  lemma SplitOneChar(c: char)
    requires c != '\n'
    ensures Split([c]) == [[c]]
  {
    assert [c][1..] == [];
    assert Split([c]) == [[c] + []] + [[]][1..];
    assert [c] + [] == [c];
  }

  /** Extending the last line commutes with putting a line in front. */
  lemma ExtendLastCons(a: string, ls: seq<string>, c: char)
    requires |ls| >= 1
    ensures var l := [a] + ls;
      l[..|l| - 1] + [l[|l| - 1] + [c]] == [a] + (ls[..|ls| - 1] + [ls[|ls| - 1] + [c]])
  {
    var l := [a] + ls;
    assert l[..|l| - 1] == [a] + ls[..|ls| - 1];
  }

  /** Extending the last line commutes with putting a character in front of the first line. */
  lemma ExtendLastFirst(x: char, ls: seq<string>, c: char)
    requires |ls| >= 1
    ensures var l := [[x] + ls[0]] + ls[1..];
      var e := ls[..|ls| - 1] + [ls[|ls| - 1] + [c]];
      l[..|l| - 1] + [l[|l| - 1] + [c]] == [[x] + e[0]] + e[1..]
  {
    var l := [[x] + ls[0]] + ls[1..];
    var e := ls[..|ls| - 1] + [ls[|ls| - 1] + [c]];
    if |ls| == 1 {
      assert e == [ls[0] + [c]];
      assert [x] + (ls[0] + [c]) == ([x] + ls[0]) + [c];
    } else {
      assert e[0] == ls[0] && e[1..] == ls[1..|ls| - 1] + [ls[|ls| - 1] + [c]];
      assert l[..|l| - 1] == [[x] + ls[0]] + ls[1..|ls| - 1];
    }
  }

  /** Appending any other character to text extends its last line. */
  lemma {:induction false} SplitSnocChar(p: string, c: char)
    requires c != '\n'
    ensures var ls := Split(p);
      Split(p + [c]) == ls[..|ls| - 1] + [ls[|ls| - 1] + [c]]
    decreases |p|
  {
    if p == [] {
      assert p + [c] == [c];
      SplitOneChar(c);
    } else {
      var x, q := p[0], p[1..];
      assert (p + [c])[0] == x && (p + [c])[1..] == q + [c];
      SplitSnocChar(q, c);
      var lq := Split(q);
      if x == '\n' {
        assert Split(p + [c]) == [[]] + Split(q + [c]);
        assert Split(p) == [[]] + lq;
        ExtendLastCons([], lq, c);
      } else {
        assert Split(p + [c]) == [[x] + Split(q + [c])[0]] + Split(q + [c])[1..];
        assert Split(p) == [[x] + lq[0]] + lq[1..];
        ExtendLastFirst(x, lq, c);
      }
    }
  }

  /** The first line of text that does not open with a newline starts with its first character. */
  lemma FirstLine(s: string)
    requires s != []
    ensures s[0] != '\n' ==> Split(s)[0] != [] && Split(s)[0][0] == s[0]
  {
  }

  /** The last line of text that does not end with a newline ends with its last character. */
  lemma LastLine(s: string)
    requires s != []
    ensures s[|s| - 1] != '\n' ==>
      var ls := Split(s);
      ls[|ls| - 1] != [] && ls[|ls| - 1][|ls[|ls| - 1]| - 1] == s[|s| - 1]
  {
    var p := s[..|s| - 1];
    assert s == p + [s[|s| - 1]];
    if s[|s| - 1] != '\n' {
      SplitSnocChar(p, s[|s| - 1]);
    }
  }

  /** Every line of `s` (pieces of `s.split("\n")`) has no leading or trailing whitespace. */
  predicate LinesStripped(s: string) {
    var ls := Split(s);
    forall i :: 0 <= i < |ls| ==> IsStripped(ls[i])
  }

  /**
   * `"\n".join(line.strip() for line in s.split("\n"))`: the result has as
   * many lines as `s`, and each is the strip of the line of `s` in its place.
   */
  function StripLines(s: string): string {
    var ls := Split(s);
    Join(seq(|ls|, i requires 0 <= i < |ls| => Strip(ls[i])))
  }

  /** The per-line strip keeps the number of lines and strips each one in its place. */
  lemma StripLinesLines(s: string)
    ensures |Split(StripLines(s))| == |Split(s)|
    ensures forall i :: 0 <= i < |Split(s)| ==> Split(StripLines(s))[i] == Strip(Split(s)[i])
  {
    var ls := Split(s);
    var stripped := seq(|ls|, i requires 0 <= i < |ls| => Strip(ls[i]));
    SplitJoin(stripped);
  }

  /** Per-line stripping leaves every line stripped and never lengthens the text. */
  lemma StripLinesSpec(s: string)
    ensures LinesStripped(StripLines(s))
    ensures |StripLines(s)| <= |s|
  {
    var ls := Split(s);
    var stripped := seq(|ls|, i requires 0 <= i < |ls| => Strip(ls[i]));
    SplitJoin(stripped);
    JoinSplit(s);
    JoinShorter(ls, stripped);
  }

  /** Joining pointwise shorter lines gives shorter text. */
  lemma {:induction false} JoinShorter(long: seq<string>, short: seq<string>)
    requires |long| == |short| >= 1
    requires forall i :: 0 <= i < |long| ==> |short[i]| <= |long[i]|
    ensures |Join(short)| <= |Join(long)|
    decreases |long|
  {
    if |long| > 1 {
      JoinShorter(long[1..], short[1..]);
    }
  }

  /** Removing leading whitespace keeps every line stripped. */
  lemma {:induction false} TrimStartKeepsLinesStripped(s: string)
    requires LinesStripped(s)
    ensures LinesStripped(TrimStart(s))
    decreases |s|
  {
    if s != [] && IsSpace(s[0]) {
      var rest := Split(s[1..]);
      FirstLine(s);
      assert IsStripped(Split(s)[0]);
      assert Split(s) == [[]] + rest;
      assert forall i :: 0 <= i < |rest| ==> rest[i] == Split(s)[i + 1];
      TrimStartKeepsLinesStripped(s[1..]);
    }
  }

  /** Removing trailing whitespace keeps every line stripped. */
  lemma {:induction false} TrimEndKeepsLinesStripped(s: string)
    requires LinesStripped(s)
    ensures LinesStripped(TrimEnd(s))
    decreases |s|
  {
    if s != [] && IsSpace(s[|s| - 1]) {
      var p := s[..|s| - 1];
      var c := s[|s| - 1];
      assert s == p + [c];
      if c == '\n' {
        SplitSnocNewline(p);
      }
      var ls := Split(p);
      LastLine(s);
      assert IsStripped(Split(s)[|Split(s)| - 1]);
      assert forall i :: 0 <= i < |ls| ==> ls[i] == Split(s)[i];
      TrimEndKeepsLinesStripped(p);
    }
  }

  /** `strip()` of text whose lines are all stripped keeps them stripped. */
  lemma StripKeepsLinesStripped(s: string)
    requires LinesStripped(s)
    ensures LinesStripped(Strip(s))
  {
    TrimStartKeepsLinesStripped(s);
    TrimEndKeepsLinesStripped(TrimStart(s));
  }
}
