/** Sequence and character helpers shared by the model. */
module Text {
  import opened Results

  predicate IsAsciiDigit(c: char) { '0' <= c <= '9' }

  predicate IsAsciiLetter(c: char) { 'a' <= c <= 'z' || 'A' <= c <= 'Z' }

  predicate StartsWith(s: string, prefix: string) {
    |prefix| <= |s| && s[..|prefix|] == prefix
  }

  predicate EndsWith(s: string, suffix: string) {
    |suffix| <= |s| && s[|s| - |suffix|..] == suffix
  }

  predicate AllDigits(s: string) {
    forall i :: 0 <= i < |s| ==> IsAsciiDigit(s[i])
  }

  /** `sub` is obtained from `s` by deleting characters, keeping the order
      of those that remain (greedy matching is complete for this). */
  predicate IsSubsequence(sub: string, s: string)
    decreases |s|
  {
    if sub == [] then true
    else if s == [] then false
    else if sub[0] == s[0] then IsSubsequence(sub[1..], s[1..])
    else IsSubsequence(sub, s[1..])
  }

  /** Every prefix of a subsequence is a subsequence. */
  lemma {:induction false} SubsequencePrefix(sub: string, s: string, n: nat)
    requires n <= |sub|
    requires IsSubsequence(sub, s)
    ensures IsSubsequence(sub[..n], s)
    decreases |s|
  {
    if n == 0 || sub == [] {
    } else if s == [] {
    } else if sub[0] == s[0] {
      SubsequencePrefix(sub[1..], s[1..], n - 1);
      assert sub[..n][1..] == sub[1..][..n - 1];
    } else {
      SubsequencePrefix(sub, s[1..], n);
    }
  }

  /** Index of the first `c` in `s`, or `|s|` when `s` has none. */
  function FirstIndex(s: string, c: char): (r: nat)
    ensures r <= |s|
    ensures r < |s| ==> s[r] == c
    ensures forall k :: 0 <= k < r ==> s[k] != c
  {
    if s == [] then 0
    else if s[0] == c then 0
    else 1 + FirstIndex(s[1..], c)
  }

  /** The index the contract above describes is the only one it can be. */
  lemma FirstIndexIs(s: string, c: char, r: nat)
    requires r < |s| && s[r] == c
    requires forall k :: 0 <= k < r ==> s[k] != c
    ensures FirstIndex(s, c) == r
  {
  }

  /** Splits off the first line of `s`: the text before the first newline
      and the text after it, or None when `s` holds no newline. */
  function SplitLine(s: string): (r: Option<(string, string)>)
    ensures r.Some? ==> s == r.value.0 + "\n" + r.value.1 && '\n' !in r.value.0
    ensures r.None? ==> '\n' !in s
  {
    var i := FirstIndex(s, '\n');
    if i == |s| then None
    else
      assert s == s[..i] + "\n" + s[i + 1..];
      Some((s[..i], s[i + 1..]))
  }

  /** A line without a newline is split back off exactly. */
  lemma SplitLineJoin(line: string, rest: string)
    requires '\n' !in line
    ensures SplitLine(line + "\n" + rest) == Some((line, rest))
  {
    var s := line + "\n" + rest;
    FirstIndexIs(s, '\n', |line|);
    assert s[..|line|] == line;
    assert s[|line| + 1..] == rest;
  }

  /** Lines each followed by a newline. */
  function JoinLines(lines: seq<string>): string {
    if lines == [] then "" else lines[0] + "\n" + JoinLines(lines[1..])
  }

  predicate SingleLines(lines: seq<string>) {
    forall i :: 0 <= i < |lines| ==> '\n' !in lines[i]
  }

  /** The first `n` lines of `s` and the text after them, or None when `s`
      has fewer than `n` newlines. */
  function ReadLines(s: string, n: nat): (r: Option<(seq<string>, string)>)
    ensures r.Some? ==> |r.value.0| == n
  {
    if n == 0 then Some(([], s))
    else
      match SplitLine(s)
      case None => None
      case Some(split) =>
        match ReadLines(split.1, n - 1)
        case None => None
        case Some(more) => Some(([split.0] + more.0, more.1))
  }

  /** Reading lines back off joined lines gives them, and the text after, unchanged. */
  lemma {:induction false} ReadJoinedLines(lines: seq<string>, rest: string)
    requires SingleLines(lines)
    ensures ReadLines(JoinLines(lines) + rest, |lines|) == Some((lines, rest))
  {
    if lines != [] {
      var tail := JoinLines(lines[1..]) + rest;
      assert JoinLines(lines) + rest == lines[0] + "\n" + tail;
      assert '\n' !in lines[0];
      SplitLineJoin(lines[0], tail);
      assert SingleLines(lines[1..]) by {
        forall i | 0 <= i < |lines[1..]| ensures '\n' !in lines[1..][i] {
          assert lines[1..][i] == lines[i + 1];
        }
      }
      ReadJoinedLines(lines[1..], rest);
      assert ReadLines(tail, |lines| - 1) == Some((lines[1..], rest));
      assert [lines[0]] + lines[1..] == lines;
    } else {
      assert JoinLines(lines) + rest == rest;
    }
  }

  lemma SingleLinesCons(line: string, more: seq<string>)
    requires '\n' !in line && SingleLines(more)
    ensures SingleLines([line] + more)
  {
    var lines := [line] + more;
    forall i | 0 <= i < |lines| ensures '\n' !in lines[i] {
      if i > 0 {
        assert lines[i] == more[i - 1];
      }
    }
  }

  lemma JoinLinesCons(line: string, more: seq<string>, rest: string)
    ensures JoinLines([line] + more) + rest == line + "\n" + (JoinLines(more) + rest)
  {
    assert ([line] + more)[1..] == more;
  }

  /** Reading `n > 0` lines reads the first line, then `n - 1` more. */
  lemma ReadLinesStep(s: string, n: nat)
    requires n > 0 && ReadLines(s, n).Some?
    ensures SplitLine(s).Some?
    ensures var split := SplitLine(s).value;
            && ReadLines(split.1, n - 1).Some?
            && ReadLines(s, n).value == ([split.0] + ReadLines(split.1, n - 1).value.0, ReadLines(split.1, n - 1).value.1)
  {
  }

  /** A first line in front of joined lines is one more joined line. */
  lemma JoinLine(s: string, line: string, rest: string, more: seq<string>, after: string)
    requires s == line + "\n" + rest && '\n' !in line
    requires SingleLines(more) && rest == JoinLines(more) + after
    ensures SingleLines([line] + more) && s == JoinLines([line] + more) + after
  {
    SingleLinesCons(line, more);
    JoinLinesCons(line, more, after);
  }

  /** Whatever reads as lines is those lines joined, followed by the rest. */
  lemma {:induction false} JoinReadLines(s: string, n: nat, lines: seq<string>, after: string)
    requires ReadLines(s, n) == Some((lines, after))
    ensures SingleLines(lines) && s == JoinLines(lines) + after
  {
    if n > 0 {
      ReadLinesStep(s, n);
      var split := SplitLine(s).value;
      var more := ReadLines(split.1, n - 1).value;
      JoinReadLines(split.1, n - 1, more.0, more.1);
      JoinLine(s, split.0, split.1, more.0, more.1);
    } else {
      assert JoinLines(lines) + after == after;
    }
  }

  function Pow10(n: nat): (r: nat)
    ensures r >= 1
  {
    if n == 0 then 1 else 10 * Pow10(n - 1)
  }

  function DigitChar(d: nat): (c: char)
    requires d < 10
    ensures IsAsciiDigit(c)
  {
    ('0' as int + d) as char
  }

  /** The last `width` decimal digits of `n`, zero-padded: what `%0<width>d`
      prints for `n < 10^width`. */
  function Digits(n: nat, width: nat): (r: string)
    ensures |r| == width
    ensures AllDigits(r)
  {
    if width == 0 then [] else Digits(n / 10, width - 1) + [DigitChar(n % 10)]
  }

  /** The number a string of decimal digits denotes (Python's `int(s)`). */
  function DecimalValue(s: string): nat
    requires AllDigits(s)
  {
    if s == [] then 0
    else 10 * DecimalValue(s[..|s| - 1]) + (s[|s| - 1] as int - '0' as int)
  }

  /** Reading padded digits back gives the number that was written. */
  lemma {:induction false} DigitsRoundTrip(n: nat, width: nat)
    requires n < Pow10(width)
    ensures DecimalValue(Digits(n, width)) == n
  {
    if width > 0 {
      var d := Digits(n, width);
      assert d[..|d| - 1] == Digits(n / 10, width - 1);
      DigitsRoundTrip(n / 10, width - 1);
    }
  }
}
