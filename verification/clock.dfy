/** Wall-clock instants and the three textual forms the source prints them in. */
module Clock {
  import opened Text

  /** A naive `datetime`: what `datetime.now()` returns. */
  datatype DateTime = DateTime(year: nat, month: nat, day: nat,
                               hour: nat, minute: nat, second: nat, microsecond: nat)

  predicate Valid(t: DateTime) {
    && 1 <= t.year <= 9999 && 1 <= t.month <= 12 && 1 <= t.day <= 31
    && t.hour < 24 && t.minute < 60 && t.second < 60 && t.microsecond < 1000000
  }

  /** `strftime("%Y%m%d_%H%M%S")`: the sortable stamp in note and queue file names. */
  function CompactStamp(t: DateTime): (r: string)
    requires Valid(t)
    ensures |r| == 15 && r[8] == '_'
    ensures AllDigits(r[..8]) && AllDigits(r[9..])
  {
    var r := Digits(t.year, 4) + Digits(t.month, 2) + Digits(t.day, 2) + "_"
             + Digits(t.hour, 2) + Digits(t.minute, 2) + Digits(t.second, 2);
    assert r[..8] == Digits(t.year, 4) + Digits(t.month, 2) + Digits(t.day, 2);
    assert r[9..] == Digits(t.hour, 2) + Digits(t.minute, 2) + Digits(t.second, 2);
    r
  }

  /** Reads the six fields back out of a compact stamp. */
  function ReadCompactStamp(s: string): (nat, nat, nat, nat, nat, nat)
    requires |s| == 15 && AllDigits(s[..8]) && AllDigits(s[9..])
  {
    assert AllDigits(s[0..4]) && AllDigits(s[4..6]) && AllDigits(s[6..8]) by {
      assert forall i :: 0 <= i < 8 ==> s[..8][i] == s[i];
    }
    assert AllDigits(s[9..11]) && AllDigits(s[11..13]) && AllDigits(s[13..15]) by {
      assert forall i :: 9 <= i < 15 ==> s[9..][i - 9] == s[i];
    }
    (DecimalValue(s[0..4]), DecimalValue(s[4..6]), DecimalValue(s[6..8]),
     DecimalValue(s[9..11]), DecimalValue(s[11..13]), DecimalValue(s[13..15]))
  }

  /** Where the six fields sit in a compact stamp. */
  lemma CompactParts(a: string, b: string, c: string, d: string, e: string, f: string)
    requires |a| == 4 && |b| == 2 && |c| == 2 && |d| == 2 && |e| == 2 && |f| == 2
    ensures var s := a + b + c + "_" + d + e + f;
            && s[0..4] == a && s[4..6] == b && s[6..8] == c
            && s[9..11] == d && s[11..13] == e && s[13..15] == f
  {
  }

  /** A compact stamp determines the instant to the second. */
  lemma CompactStampRoundTrip(t: DateTime)
    requires Valid(t)
    ensures ReadCompactStamp(CompactStamp(t))
            == (t.year, t.month, t.day, t.hour, t.minute, t.second)
  {
    CompactParts(Digits(t.year, 4), Digits(t.month, 2), Digits(t.day, 2),
                 Digits(t.hour, 2), Digits(t.minute, 2), Digits(t.second, 2));
    DigitsRoundTrip(t.year, 4);
    DigitsRoundTrip(t.month, 2);
    DigitsRoundTrip(t.day, 2);
    DigitsRoundTrip(t.hour, 2);
    DigitsRoundTrip(t.minute, 2);
    DigitsRoundTrip(t.second, 2);
  }

  /** `%Y-%m-%d`. */
  function DayPart(t: DateTime): string {
    Digits(t.year, 4) + "-" + Digits(t.month, 2) + "-" + Digits(t.day, 2)
  }

  /** `%H:%M:%S`. */
  function TimePart(t: DateTime): string {
    Digits(t.hour, 2) + ":" + Digits(t.minute, 2) + ":" + Digits(t.second, 2)
  }

  /** The date and the time of day joined by `sep`. */
  function Date(t: DateTime, sep: string): string {
    DayPart(t) + sep + TimePart(t)
  }

  /** Where the parts sit in three pieces joined by one-character separators. */
  lemma Joined(a: string, s1: string, b: string, s2: string, c: string)
    requires |s1| == 1 && |s2| == 1
    ensures var s := a + s1 + b + s2 + c;
            && |s| == |a| + |b| + |c| + 2
            && s[..|a|] == a && s[|a|] == s1[0] && s[|a| + 1..|a| + 1 + |b|] == b
            && s[|a| + 1 + |b|] == s2[0] && s[|a| + 2 + |b|..] == c
  {
  }

  /** Text with each field's digits at its position reads back as the fields. */
  lemma ReadDateOf(s: string, t: DateTime)
    requires |s| >= 19
    requires s[0..4] == Digits(t.year, 4) && s[5..7] == Digits(t.month, 2) && s[8..10] == Digits(t.day, 2)
    requires s[11..13] == Digits(t.hour, 2) && s[14..16] == Digits(t.minute, 2) && s[17..19] == Digits(t.second, 2)
    requires t.year < 10000 && t.month < 100 && t.day < 100 && t.hour < 100 && t.minute < 100 && t.second < 100
    ensures ReadDate(s) == (t.year, t.month, t.day, t.hour, t.minute, t.second)
  {
    DigitsRoundTrip(t.year, 4);
    DigitsRoundTrip(t.month, 2);
    DigitsRoundTrip(t.day, 2);
    DigitsRoundTrip(t.hour, 2);
    DigitsRoundTrip(t.minute, 2);
    DigitsRoundTrip(t.second, 2);
  }

  /** The six fields of a date and time, read from their fixed positions. */
  function ReadDate(s: string): (nat, nat, nat, nat, nat, nat)
    requires |s| >= 19
    requires AllDigits(s[0..4]) && AllDigits(s[5..7]) && AllDigits(s[8..10])
    requires AllDigits(s[11..13]) && AllDigits(s[14..16]) && AllDigits(s[17..19])
  {
    (DecimalValue(s[0..4]), DecimalValue(s[5..7]), DecimalValue(s[8..10]),
     DecimalValue(s[11..13]), DecimalValue(s[14..16]), DecimalValue(s[17..19]))
  }

  /** `Date` puts each field's digits at its fixed position. */
  lemma DateFields(t: DateTime, sep: string)
    requires |sep| == 1
    ensures var s := Date(t, sep);
            && |s| == 19
            && s[0..4] == Digits(t.year, 4) && s[5..7] == Digits(t.month, 2) && s[8..10] == Digits(t.day, 2)
            && s[11..13] == Digits(t.hour, 2) && s[14..16] == Digits(t.minute, 2) && s[17..19] == Digits(t.second, 2)
            && s[4] == '-' && s[7] == '-' && s[10] == sep[0] && s[13] == ':' && s[16] == ':'
            && s[..10] == DayPart(t) && s[11..] == TimePart(t)
  {
    var day, time := DayPart(t), TimePart(t);
    Joined(Digits(t.year, 4), "-", Digits(t.month, 2), "-", Digits(t.day, 2));
    Joined(Digits(t.hour, 2), ":", Digits(t.minute, 2), ":", Digits(t.second, 2));
    DateJoined(day, sep, time);
  }

  /** The slices of a day and time of the fixed widths, joined by `sep`. */
  lemma DateJoined(day: string, sep: string, time: string)
    requires |day| == 10 && |sep| == 1 && |time| == 8
    ensures var s := day + sep + time;
            && s[..10] == day && s[10] == sep[0] && s[11..] == time
            && s[0..4] == day[0..4] && s[5..7] == day[5..7] && s[8..10] == day[8..10]
            && s[4] == day[4] && s[7] == day[7]
            && s[11..13] == time[0..2] && s[14..16] == time[3..5] && s[17..19] == time[6..8]
            && s[13] == time[2] && s[16] == time[5]
  {
  }

  /** A date and time rendering holds no line break. */
  lemma DateNoNewline(t: DateTime, sep: string)
    requires '\n' !in sep
    ensures '\n' !in Date(t, sep)
  {
    NoNewlineDigits(t.year, 4);
    NoNewlineDigits(t.month, 2);
    NoNewlineDigits(t.day, 2);
    NoNewlineDigits(t.hour, 2);
    NoNewlineDigits(t.minute, 2);
    NoNewlineDigits(t.second, 2);
  }

  lemma NoNewlineDigits(n: nat, width: nat)
    ensures '\n' !in Digits(n, width)
  {
    assert forall i :: 0 <= i < width ==> IsAsciiDigit(Digits(n, width)[i]);
  }

  /** A suffix after nineteen characters leaves the field positions alone. */
  lemma DatePrefix(date: string, frac: string)
    requires |date| == 19
    ensures var s := date + frac;
            && s[..19] == date && s[19..] == frac
            && s[0..4] == date[0..4] && s[5..7] == date[5..7] && s[8..10] == date[8..10]
            && s[11..13] == date[11..13] && s[14..16] == date[14..16] && s[17..19] == date[17..19]
  {
  }

  /** Two renderings of one reading differ only in the separator. */
  lemma DateSeparator(t: DateTime, sep: string, sep': string)
    requires |sep| == 1 && |sep'| == 1
    ensures Date(t, sep) == Date(t, sep')[..10] + sep + Date(t, sep')[11..]
  {
    DateFields(t, sep');
  }

  /** `strftime("%Y-%m-%d %H:%M:%S")`: the `{timestamp}` a template receives. */
  function DisplayStamp(t: DateTime): (r: string)
    requires Valid(t)
    ensures |r| == 19 && r[4] == '-' && r[7] == '-' && r[10] == ' ' && r[13] == ':' && r[16] == ':'
  {
    DateFields(t, " ");
    Date(t, " ")
  }

  /** The microseconds part of `isoformat()`: nothing when they are zero. */
  function Fraction(t: DateTime): string {
    if t.microsecond == 0 then "" else "." + Digits(t.microsecond, 6)
  }

  /** `isoformat()`: the date and time joined by `T`, with six digits of
      microseconds only when they are not zero. */
  function IsoFormat(t: DateTime): (r: string)
    requires Valid(t)
    ensures |r| == (if t.microsecond == 0 then 19 else 26)
    ensures r[10] == 'T' && '\n' !in r
  {
    DateFields(t, "T");
    DateNoNewline(t, "T");
    NoNewlineDigits(t.microsecond, 6);
    DatePrefix(Date(t, "T"), Fraction(t));
    Date(t, "T") + Fraction(t)
  }

  /** The displayed stamp reads back as the reading, to the second. */
  lemma DisplayStampRoundTrip(t: DateTime)
    requires Valid(t)
    ensures ReadDate(DisplayStamp(t)) == (t.year, t.month, t.day, t.hour, t.minute, t.second)
  {
    DateFields(t, " ");
    ReadDateOf(Date(t, " "), t);
  }

  /** The ISO form reads back as the reading to the second ... */
  lemma IsoFormatRoundTrip(t: DateTime)
    requires Valid(t)
    ensures ReadDate(IsoFormat(t)) == (t.year, t.month, t.day, t.hour, t.minute, t.second)
  {
    DateFields(t, "T");
    DatePrefix(Date(t, "T"), Fraction(t));
    ReadDateOf(Date(t, "T") + Fraction(t), t);
  }

  /** ... and then carries the microseconds after a dot when there are any. */
  lemma IsoFormatMicroseconds(t: DateTime)
    requires Valid(t)
    ensures t.microsecond == 0 ==> |IsoFormat(t)| == 19
    ensures t.microsecond != 0 ==> IsoFormat(t)[19] == '.' && IsoFormat(t)[20..] == Digits(t.microsecond, 6)
    ensures t.microsecond != 0 ==> DecimalValue(IsoFormat(t)[20..]) == t.microsecond
  {
    var frac := Fraction(t);
    assert |Date(t, "T")| == 19;
    DatePrefix(Date(t, "T"), frac);
    if t.microsecond != 0 {
      assert frac[0] == '.' && frac[1..] == Digits(t.microsecond, 6);
      DigitsRoundTrip(t.microsecond, 6);
    }
  }

  /** The three forms of one reading agree: the ISO form is the displayed
      stamp with `T` for the space, and the compact stamp is its digits. */
  lemma StampsAgree(t: DateTime)
    requires Valid(t)
    ensures IsoFormat(t)[..19] == DisplayStamp(t)[..10] + "T" + DisplayStamp(t)[11..]
    ensures var d := DisplayStamp(t);
            CompactStamp(t) == d[0..4] + d[5..7] + d[8..10] + "_" + d[11..13] + d[14..16] + d[17..19]
  {
    DateSeparator(t, "T", " ");
    DateFields(t, " ");
    DatePrefix(Date(t, "T"), Fraction(t));
  }
}
