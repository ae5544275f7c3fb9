/** The parts of the Python runtime the model relies on. Character classes
    are exact on ASCII; Unicode tables and the textual forms produced by
    `repr`, `str`, `json.dumps` and `pathlib` are supplied by a `Host`. */
module Python {
  import opened Json
  import opened Text

  datatype Host = Host(
    unicodeAlnum: char -> bool,       // str.isalnum on a non-ASCII character
    unicodeSpace: char -> bool,       // str.isspace on a non-ASCII character
    lower: string -> string,          // str.lower
    reprList: seq<string> -> string,  // repr of a list of strings
    strOf: Value -> string,           // str() of a number, list or dict
    dumps: Value -> string,           // json.dumps(value, indent=2)
    showPath: seq<string> -> string   // str() of a pathlib path joined from parts
  )

  /** str.isalnum for one character. */
  predicate IsAlnum(h: Host, c: char) {
    if c as int < 128 then IsAsciiLetter(c) || IsAsciiDigit(c) else h.unicodeAlnum(c)
  }

  /** str.isspace for one character: on ASCII, tab through carriage return,
      the four separators 0x1c-0x1f, and space. */
  predicate IsSpace(h: Host, c: char) {
    if c as int < 128 then 9 <= c as int <= 13 || 28 <= c as int <= 32 else h.unicodeSpace(c)
  }

  /** str(v) for a value loaded from JSON. */
  function StrOf(h: Host, v: Value): (r: string)
    ensures v.String? ==> r == v.s
  {
    match v
    case String(s) => s
    case Null => "None"
    case Bool(b) => if b then "True" else "False"
    case _ => h.strOf(v)
  }

  /** str.rstrip(): drops trailing whitespace and nothing else. */
  function RStrip(h: Host, s: string): (r: string)
    ensures StartsWith(s, r)
    ensures r == [] || !IsSpace(h, r[|r| - 1])
    ensures forall k :: |r| <= k < |s| ==> IsSpace(h, s[k])
  {
    if s == [] || !IsSpace(h, s[|s| - 1]) then s else RStrip(h, s[..|s| - 1])
  }

  /** str.lstrip(): drops leading whitespace and nothing else. */
  function LStrip(h: Host, s: string): (r: string)
    ensures EndsWith(s, r)
    ensures r == [] || !IsSpace(h, r[0])
    ensures forall k :: 0 <= k < |s| - |r| ==> IsSpace(h, s[k])
  {
    if s == [] || !IsSpace(h, s[0]) then s else LStrip(h, s[1..])
  }

  /** How many whitespace characters `s` starts with. */
  function LeadingSpaces(h: Host, s: string): (n: nat)
    ensures n <= |s|
    ensures forall k :: 0 <= k < n ==> IsSpace(h, s[k])
    ensures n < |s| ==> !IsSpace(h, s[n])
  {
    if s == [] || !IsSpace(h, s[0]) then 0 else 1 + LeadingSpaces(h, s[1..])
  }

  /** `lstrip` drops exactly the leading whitespace. */
  lemma {:induction false} LStripDropsLeading(h: Host, s: string)
    ensures |s| - |LStrip(h, s)| == LeadingSpaces(h, s)
  {
    if s != [] && IsSpace(h, s[0]) {
      LStripDropsLeading(h, s[1..]);
    }
  }

  /** str.strip(): drops whitespace at both ends. */
  function Strip(h: Host, s: string): (r: string)
    ensures r == [] || (!IsSpace(h, r[0]) && !IsSpace(h, r[|r| - 1]))
  {
    var l := LStrip(h, s);
    var r := RStrip(h, l);
    assert r != [] ==> r[0] == l[0];
    r
  }

  /** What `strip` keeps is the slice of `s` after its leading whitespace,
      and everything after that slice is whitespace too. */
  lemma StripSlice(h: Host, s: string)
    ensures var r := Strip(h, s); var i := LeadingSpaces(h, s);
            && i + |r| <= |s| && r == s[i..i + |r|]
            && forall k :: i + |r| <= k < |s| ==> IsSpace(h, s[k])
  {
    LStripDropsLeading(h, s);
    TrimmedSlice(h, s, LStrip(h, s), RStrip(h, LStrip(h, s)));
  }

  /** A prefix `r` of a suffix `l` of `s` is a slice of `s`, and whatever
      `r` leaves off `l` is still at the end of `s`. */
  lemma TrimmedSlice(h: Host, s: string, l: string, r: string)
    requires EndsWith(s, l) && StartsWith(l, r)
    requires forall k :: |r| <= k < |l| ==> IsSpace(h, l[k])
    ensures var i := |s| - |l|;
            && i + |r| <= |s| && r == s[i..i + |r|]
            && forall k :: i + |r| <= k < |s| ==> IsSpace(h, s[k])
  {
    var i := |s| - |l|;
    assert r == l[..|r|];
    forall k | i + |r| <= k < |s|
      ensures IsSpace(h, s[k])
    {
      assert s[k] == l[k - i];
    }
  }

  /** Whitespace alone strips to nothing; anything else keeps a character. */
  lemma {:induction false} StripEmpty(h: Host, s: string)
    ensures Strip(h, s) == [] <==> forall k :: 0 <= k < |s| ==> IsSpace(h, s[k])
  {
    StripSlice(h, s);
    if Strip(h, s) != [] {
      var r := Strip(h, s);
      assert s[LeadingSpaces(h, s)] == r[0];
    }
  }
}
