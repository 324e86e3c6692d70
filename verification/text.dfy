/** The two Python string operations the record utilities rely on:
    `str.strip()` with no argument and `str.split(sep)` with a one-character
    separator, together with `sep.join`, the inverse of splitting. */
module Text {

  /** The characters Python's `str.isspace()` accepts: the ASCII white
      space characters, the four information separators and the Unicode
      spaces. */
  const Whitespace: set<char> := {
    '\t', '\n', '\U{0B}', '\U{0C}', '\r', '\U{1C}', '\U{1D}', '\U{1E}', '\U{1F}', ' ',
    '\U{85}', '\U{A0}', '\U{1680}',
    '\U{2000}', '\U{2001}', '\U{2002}', '\U{2003}', '\U{2004}', '\U{2005}',
    '\U{2006}', '\U{2007}', '\U{2008}', '\U{2009}', '\U{200A}',
    '\U{2028}', '\U{2029}', '\U{202F}', '\U{205F}', '\U{3000}'
  }

  predicate IsSpace(c: char) {
    c in Whitespace
  }

  predicate AllSpace(s: string) {
    forall i :: 0 <= i < |s| ==> IsSpace(s[i])
  }

  /** The end of the run of white space in `s` that starts at `i`. */
  function SpaceRun(s: string, i: nat): (j: nat)
    requires i <= |s|
    ensures i <= j <= |s|
    ensures forall k :: i <= k < j ==> IsSpace(s[k])
    ensures j < |s| ==> !IsSpace(s[j])
    decreases |s| - i
  {
    if i < |s| && IsSpace(s[i]) then SpaceRun(s, i + 1) else i
  }

  /** The start of the run of white space in `s` that ends just before `j`. */
  function SpaceRunBack(s: string, j: nat): (i: nat)
    requires j <= |s|
    ensures i <= j
    ensures forall k :: i <= k < j ==> IsSpace(s[k])
    ensures i > 0 ==> !IsSpace(s[i - 1])
  {
    if j > 0 && IsSpace(s[j - 1]) then SpaceRunBack(s, j - 1) else j
  }

  /** `s` with its leading white space removed. */
  function TrimStart(s: string): (r: string)
    ensures |r| <= |s| && r == s[|s| - |r|..]
    ensures AllSpace(s[..|s| - |r|])
    ensures r == [] || !IsSpace(r[0])
  {
    var n := SpaceRun(s, 0);
    assert forall k :: 0 <= k < n ==> s[..n][k] == s[k];
    s[n..]
  }

  /** `s` with its trailing white space removed. */
  function TrimEnd(s: string): (r: string)
    ensures |r| <= |s| && r == s[..|r|]
    ensures AllSpace(s[|r|..])
    ensures r == [] || !IsSpace(r[|r| - 1])
  {
    var n := SpaceRunBack(s, |s|);
    assert forall k :: n <= k < |s| ==> s[n..][k - n] == s[k];
    s[..n]
  }

  /** Python's `s.strip()`: white space dropped at both ends. */
  function Strip(s: string): (r: string)
    ensures r == [] || (!IsSpace(r[0]) && !IsSpace(r[|r| - 1]))
  {
    TrimEnd(TrimStart(s))
  }

  /** What `strip` keeps is the infix of the input starting at `i`, and
      everything it drops is white space. */
  lemma StripInfix(s: string) returns (i: nat)
    ensures i + |Strip(s)| <= |s|
    ensures Strip(s) == s[i..i + |Strip(s)|]
    ensures AllSpace(s[..i]) && AllSpace(s[i + |Strip(s)|..])
  {
    var t := TrimStart(s);
    i := |s| - |t|;
    var r := TrimEnd(t);
    assert t == s[i..] && r == t[..|r|];
    Slices(s, i, |r|);
  }

  lemma Slices<T>(s: seq<T>, i: nat, m: nat)
    requires i + m <= |s|
    ensures s[i..][..m] == s[i..i + m] && s[i..][m..] == s[i + m..]
  {
  }

  /** A line is blank after stripping exactly when every character of it is
      white space. */
  lemma StripEmptyIffAllSpace(s: string)
    ensures Strip(s) == [] <==> AllSpace(s)
  {
  }

  /** Stripping twice is stripping once. */
  lemma StripIdempotent(s: string)
    ensures Strip(Strip(s)) == Strip(s)
  {
  }

  /** Number of occurrences of `c` in `s`. */
  function Count(s: string, c: char): nat
  {
    if |s| == 0 then 0 else (if s[0] == c then 1 else 0) + Count(s[1..], c)
  }

  /** Python's `s.split(c)` for a one-character separator: the pieces between
      consecutive occurrences of `c`, one more piece than there are
      separators, none of them containing `c`. */
  function Split(s: string, c: char): (parts: seq<string>)
    ensures |parts| == Count(s, c) + 1
    ensures forall k :: 0 <= k < |parts| ==> c !in parts[k]
  {
    if |s| == 0 then [""]
    else if s[0] == c then [""] + Split(s[1..], c)
    else
      var rest := Split(s[1..], c);
      [[s[0]] + rest[0]] + rest[1..]
  }

  /** Python's `c.join(parts)`. */
  function Join(parts: seq<string>, c: char): string
    requires |parts| > 0
  {
    if |parts| == 1 then parts[0] else parts[0] + [c] + Join(parts[1..], c)
  }

  /** Splitting loses nothing: joining the pieces back gives the input. */
  lemma {:induction false} JoinSplit(s: string, c: char)
    ensures Join(Split(s, c), c) == s
    decreases |s|
  {
    if |s| == 0 {
    } else if s[0] == c {
      JoinSplit(s[1..], c);
      assert [s[0]] + s[1..] == s;
    } else {
      JoinSplit(s[1..], c);
      var rest := Split(s[1..], c);
      if |rest| == 1 {
        assert [s[0]] + s[1..] == s;
      } else {
        assert rest == [rest[0]] + rest[1..];
        assert Join(rest, c) == rest[0] + [c] + Join(rest[1..], c);
        assert [s[0]] + s[1..] == s;
      }
    }
  }

  /** Joining pieces that do not contain the separator and splitting again
      gives the pieces back. */
  lemma {:induction false} SplitJoin(parts: seq<string>, c: char)
    requires |parts| > 0
    requires forall k :: 0 <= k < |parts| ==> c !in parts[k]
    ensures Split(Join(parts, c), c) == parts
    decreases |parts|, |parts[0]|
  {
    var p := parts[0];
    if |p| == 0 {
      if |parts| > 1 {
        SplitJoin(parts[1..], c);
        assert Join(parts, c) == [c] + Join(parts[1..], c);
        assert Join(parts, c)[1..] == Join(parts[1..], c);
        assert [""] + parts[1..] == parts;
      }
    } else {
      var tail := [p[1..]] + parts[1..];
      forall k | 0 <= k < |tail|
        ensures c !in tail[k]
      {
        if k == 0 { assert forall x :: x in p[1..] ==> x in p; }
      }
      SplitJoin(tail, c);
      JoinPeel(parts, c);
      assert Join(parts, c)[1..] == Join(tail, c);
      assert p[0] != c by { assert p[0] in p; }
      assert [p[0]] + p[1..] == p;
      assert tail[1..] == parts[1..];
      assert [[p[0]] + tail[0]] + tail[1..] == parts;
    }
  }

  /** The first character of a join is that of its first piece, when that
      piece is not empty. */
  lemma JoinPeel(parts: seq<string>, c: char)
    requires |parts| > 0 && |parts[0]| > 0
    ensures Join(parts, c) == [parts[0][0]] + Join([parts[0][1..]] + parts[1..], c)
  {
    var p := parts[0];
    var tail := [p[1..]] + parts[1..];
    JoinHead(parts, c);
    JoinHead(tail, c);
    assert tail[1..] == parts[1..];
    assert p == [p[0]] + p[1..];
  }

  lemma JoinHead(parts: seq<string>, c: char)
    requires |parts| > 0
    ensures |parts| == 1 ==> Join(parts, c) == parts[0]
    ensures |parts| > 1 ==> Join(parts, c) == parts[0] + [c] + Join(parts[1..], c)
  {
  }

  /** A line of three separator-free cells splits into exactly those cells. */
  lemma SplitOfThree(a: string, b: string, c: string, sep: char)
    requires sep !in a && sep !in b && sep !in c
    ensures Split(a + [sep] + b + [sep] + c, sep) == [a, b, c]
  {
    var parts := [a, b, c];
    assert parts[1..] == [b, c] && [b, c][1..] == [c];
    assert Join([c], sep) == c;
    assert Join([b, c], sep) == b + [sep] + c;
    assert Join(parts, sep) == a + [sep] + (b + [sep] + c);
    assert a + [sep] + (b + [sep] + c) == a + [sep] + b + [sep] + c;
    forall k | 0 <= k < |parts|
      ensures sep !in parts[k]
    {
    }
    SplitJoin(parts, sep);
  }

  /** The first piece of a split is the text before the first separator:
      a prefix of the input free of the separator, followed in the input by
      the separator itself when the separator occurs at all. */
  lemma {:induction false} SplitHead(s: string, c: char)
    ensures var h := Split(s, c)[0];
      && |h| <= |s| && s[..|h|] == h && c !in h
      && (c in s <==> |h| < |s|)
      && (|h| < |s| ==> s[|h|] == c)
    decreases |s|
  {
    if |s| > 0 && s[0] != c {
      SplitHead(s[1..], c);
      var h' := Split(s[1..], c)[0];
      assert Split(s, c)[0] == [s[0]] + h';
      assert c in s <==> c in s[1..];
    }
  }
}
