/** `timestamp`: the UTC fields of `time.gmtime()` formatted as
    `YYYY-MM-DDTHH:MM:SSZ`, the extended date-time form of ISO 8601
    (section 5.6 of RFC 3339). The clock itself is a parameter. */
module Timestamp {

  /** The first six fields of a `time.struct_time`. */
  datatype UtcTime = UtcTime(year: nat, month: nat, day: nat, hour: nat, minute: nat, second: nat)

  /** Fields that fit the widths of the format: four digits of year, two of the rest. */
  predicate InRange(t: UtcTime) {
    t.year < 10000 && t.month < 100 && t.day < 100 && t.hour < 100 && t.minute < 100 && t.second < 100
  }

  predicate IsDigit(c: char) { '0' <= c <= '9' }

  predicate AllDigits(s: string) { forall i :: 0 <= i < |s| ==> IsDigit(s[i]) }

  function DigitChar(d: nat): (c: char)
    requires d < 10
    ensures IsDigit(c)
  {
    ('0' as int + d) as char
  }

  function DigitValue(c: char): (d: nat)
    requires IsDigit(c)
    ensures d < 10 && DigitChar(d) == c
  {
    c as int - '0' as int
  }

  /** The decimal numeral of `n`, without leading zeros (Python's `str(n)`). */
  function Digits(n: nat): (s: string)
    ensures |s| >= 1 && AllDigits(s)
  {
    if n < 10 then [DigitChar(n)] else Digits(n / 10) + [DigitChar(n % 10)]
  }

  function Zeros(k: nat): (s: string)
    ensures |s| == k && AllDigits(s)
  {
    seq(k, _ => '0')
  }

  /** Python's `"{:0w}".format(n)` for a non-negative `n`: zeros on the left up
      to `width` characters; a numeral longer than `width` is kept whole. */
  function Padded(n: nat, width: nat): (s: string)
    ensures AllDigits(s)
  {
    if |Digits(n)| < width then Zeros(width - |Digits(n)|) + Digits(n) else Digits(n)
  }

  /** The number a string of decimal digits denotes. */
  function DigitsValue(s: string): nat
    requires AllDigits(s)
  {
    if s == [] then 0 else 10 * DigitsValue(s[..|s| - 1]) + DigitValue(s[|s| - 1])
  }

  /** The string `timestamp()` returns for the clock reading `t`. */
  function Format(t: UtcTime): (s: string)
    ensures |s| >= 20 && s[|s| - 1] == 'Z'
  {
    Padded(t.year, 4) + "-" + Padded(t.month, 2) + "-" + Padded(t.day, 2) + "T"
    + Padded(t.hour, 2) + ":" + Padded(t.minute, 2) + ":" + Padded(t.second, 2) + "Z"
  }

  /** Positions of the separators in a 20-character timestamp. */
  predicate IsSeparatorPosition(i: int) {
    i == 4 || i == 7 || i == 10 || i == 13 || i == 16 || i == 19
  }

  /** The shape `\d{4}-\d{2}-\d{2}T\d{2}:\d{2}:\d{2}Z`. */
  predicate WellFormed(s: string) {
    && |s| == 20
    && s[4] == '-' && s[7] == '-' && s[10] == 'T' && s[13] == ':' && s[16] == ':' && s[19] == 'Z'
    && forall i :: 0 <= i < 20 && !IsSeparatorPosition(i) ==> IsDigit(s[i])
  }

  /** Reads the six digit groups of a well-formed timestamp back. */
  function Parse(s: string): (r: Option)
    ensures r.Some? <==> WellFormed(s)
  {
    if !WellFormed(s) then None
    else
      assert AllDigits(s[0..4]) && AllDigits(s[5..7]) && AllDigits(s[8..10]);
      assert AllDigits(s[11..13]) && AllDigits(s[14..16]) && AllDigits(s[17..19]);
      Some(UtcTime(DigitsValue(s[0..4]), DigitsValue(s[5..7]), DigitsValue(s[8..10]),
                   DigitsValue(s[11..13]), DigitsValue(s[14..16]), DigitsValue(s[17..19])))
  }

  datatype Option = None | Some(value: UtcTime)

  function Pow10(w: nat): nat {
    if w == 0 then 1 else 10 * Pow10(w - 1)
  }

  // ---------------------------------------------------------------------------
  // Digit strings

  lemma {:induction false} DigitsRoundTrip(n: nat)
    ensures DigitsValue(Digits(n)) == n
  {
    if n >= 10 {
      DigitsRoundTrip(n / 10);
      var s := Digits(n);
      assert s[..|s| - 1] == Digits(n / 10);
    }
  }

  lemma {:induction false} DigitsLength(n: nat, w: nat)
    requires w >= 1 && n < Pow10(w)
    ensures |Digits(n)| <= w
  {
    if n >= 10 {
      DigitsLength(n / 10, w - 1);
    }
  }

  lemma {:induction false} ZerosValue(k: nat)
    ensures DigitsValue(Zeros(k)) == 0
  {
    if k > 0 {
      assert Zeros(k)[..k - 1] == Zeros(k - 1);
      ZerosValue(k - 1);
    }
  }

  /** Leading zeros do not change the value of a numeral. */
  lemma {:induction false} LeadingZerosValue(k: nat, s: string)
    requires AllDigits(s)
    ensures AllDigits(Zeros(k) + s) && DigitsValue(Zeros(k) + s) == DigitsValue(s)
  {
    var z := Zeros(k) + s;
    if s == [] {
      assert z == Zeros(k);
      ZerosValue(k);
    } else {
      assert z[..|z| - 1] == Zeros(k) + s[..|s| - 1];
      LeadingZerosValue(k, s[..|s| - 1]);
    }
  }

  /** Padding keeps the value: parsing a padded numeral gives the number back. */
  lemma PaddedValue(n: nat, width: nat)
    ensures DigitsValue(Padded(n, width)) == n
  {
    DigitsRoundTrip(n);
    if |Digits(n)| < width {
      LeadingZerosValue(width - |Digits(n)|, Digits(n));
    }
  }

  lemma PaddedLength(n: nat, width: nat)
    requires width >= 1 && n < Pow10(width)
    ensures |Padded(n, width)| == width
  {
    DigitsLength(n, width);
  }

  /** A digit string that denotes zero is all zeros. */
  lemma {:induction false} ZeroValueIsZeros(g: string)
    requires AllDigits(g) && DigitsValue(g) == 0
    ensures g == Zeros(|g|)
  {
    if g != [] {
      var p := g[..|g| - 1];
      assert DigitsValue(p) == 0 && DigitValue(g[|g| - 1]) == 0;
      ZeroValueIsZeros(p);
      assert g[|g| - 1] == '0';
      assert g == p + ['0'];
    }
  }

  /** Padding the value of a digit group to the group's width rebuilds the group. */
  lemma {:induction false} PaddedOfGroup(g: string)
    requires AllDigits(g) && |g| >= 1
    ensures Padded(DigitsValue(g), |g|) == g
  {
    var p, c := g[..|g| - 1], g[|g| - 1];
    var v, d := DigitsValue(p), DigitValue(c);
    var n := DigitsValue(g);
    assert n == 10 * v + d;
    assert g == p + [c];
    if v == 0 {
      assert Digits(n) == [c];
      ZeroValueIsZeros(p);
    } else {
      assert n / 10 == v && n % 10 == d;
      assert Digits(n) == Digits(v) + [c];
      PaddedOfGroup(p);
      assert |Digits(v)| <= |p|;
      if |Digits(v)| < |p| {
        assert Zeros(|g| - |Digits(n)|) == Zeros(|p| - |Digits(v)|);
      }
    }
  }

  // ---------------------------------------------------------------------------
  // The format

  lemma Pow10Widths()
    ensures Pow10(2) == 100 && Pow10(4) == 10000
  {
    assert Pow10(1) == 10;
    assert Pow10(3) == 1000;
  }

  /** Where the six groups and the separators sit in the joined string. */
  lemma Layout(a: string, b: string, c: string, d: string, e: string, f: string)
    requires |a| == 4 && |b| == 2 && |c| == 2 && |d| == 2 && |e| == 2 && |f| == 2
    ensures var s := a + "-" + b + "-" + c + "T" + d + ":" + e + ":" + f + "Z";
            && |s| == 20
            && s[0..4] == a && s[5..7] == b && s[8..10] == c
            && s[11..13] == d && s[14..16] == e && s[17..19] == f
            && s[4] == '-' && s[7] == '-' && s[10] == 'T' && s[13] == ':' && s[16] == ':' && s[19] == 'Z'
  {
  }

  /** The six padded groups of an in-range clock reading, each of its width. */
  lemma FormatGroups(t: UtcTime)
    requires InRange(t)
    ensures var s := Format(t);
            && |s| == 20
            && s[0..4] == Padded(t.year, 4) && s[5..7] == Padded(t.month, 2) && s[8..10] == Padded(t.day, 2)
            && s[11..13] == Padded(t.hour, 2) && s[14..16] == Padded(t.minute, 2)
            && s[17..19] == Padded(t.second, 2)
            && s[4] == '-' && s[7] == '-' && s[10] == 'T' && s[13] == ':' && s[16] == ':' && s[19] == 'Z'
  {
    Pow10Widths();
    PaddedLength(t.year, 4);
    PaddedLength(t.month, 2);
    PaddedLength(t.day, 2);
    PaddedLength(t.hour, 2);
    PaddedLength(t.minute, 2);
    PaddedLength(t.second, 2);
    Layout(Padded(t.year, 4), Padded(t.month, 2), Padded(t.day, 2),
           Padded(t.hour, 2), Padded(t.minute, 2), Padded(t.second, 2));
  }

  /** For fields in range, the timestamp has the expected shape and length 20. */
  lemma FormatWellFormed(t: UtcTime)
    requires InRange(t)
    ensures WellFormed(Format(t))
  {
    var s := Format(t);
    FormatGroups(t);
    forall i | 0 <= i < 20 && !IsSeparatorPosition(i) ensures IsDigit(s[i]) {
      if i < 4 { assert s[i] == s[0..4][i]; }
      else if i < 7 { assert s[i] == s[5..7][i - 5]; }
      else if i < 10 { assert s[i] == s[8..10][i - 8]; }
      else if i < 13 { assert s[i] == s[11..13][i - 11]; }
      else if i < 16 { assert s[i] == s[14..16][i - 14]; }
      else { assert s[i] == s[17..19][i - 17]; }
    }
  }

  /** Reading the digit groups back yields the six fields formatted. */
  lemma ParseFormat(t: UtcTime)
    requires InRange(t)
    ensures Parse(Format(t)) == Some(t)
  {
    FormatWellFormed(t);
    FormatGroups(t);
    PaddedValue(t.year, 4);
    PaddedValue(t.month, 2);
    PaddedValue(t.day, 2);
    PaddedValue(t.hour, 2);
    PaddedValue(t.minute, 2);
    PaddedValue(t.second, 2);
  }

  /** Every string of the timestamp shape is the format of exactly the fields
      it parses to, and those fields are in range. */
  lemma FormatParse(s: string)
    requires WellFormed(s)
    ensures InRange(Parse(s).value) && Format(Parse(s).value) == s
  {
    var t := Parse(s).value;
    Pow10Widths();
    WellFormedGroups(s);
    GroupRebuilt(s[0..4]);
    GroupRebuilt(s[5..7]);
    GroupRebuilt(s[8..10]);
    GroupRebuilt(s[11..13]);
    GroupRebuilt(s[14..16]);
    GroupRebuilt(s[17..19]);
    FormatOfGroups(s, t);
  }

  lemma WellFormedGroups(s: string)
    requires WellFormed(s)
    ensures AllDigits(s[0..4]) && AllDigits(s[5..7]) && AllDigits(s[8..10])
    ensures AllDigits(s[11..13]) && AllDigits(s[14..16]) && AllDigits(s[17..19])
  {
  }

  /** A digit group's value fits its width, and padding the value to that
      width rebuilds the group. */
  lemma GroupRebuilt(g: string)
    requires AllDigits(g) && |g| >= 1
    ensures DigitsValue(g) < Pow10(|g|)
    ensures Padded(DigitsValue(g), |g|) == g
  {
    PaddedOfGroup(g);
    GroupBound(g);
  }

  lemma FormatOfGroups(s: string, t: UtcTime)
    requires WellFormed(s)
    requires Padded(t.year, 4) == s[0..4] && Padded(t.month, 2) == s[5..7] && Padded(t.day, 2) == s[8..10]
    requires Padded(t.hour, 2) == s[11..13] && Padded(t.minute, 2) == s[14..16] && Padded(t.second, 2) == s[17..19]
    ensures Format(t) == s
  {
    Split20(s);
  }

  /** A 20-character string is its six groups and the separators between them. */
  lemma Split20(s: string)
    requires |s| == 20
    ensures s == s[0..4] + [s[4]] + s[5..7] + [s[7]] + s[8..10] + [s[10]]
                 + s[11..13] + [s[13]] + s[14..16] + [s[16]] + s[17..19] + [s[19]]
  {
    assert s[17..] == s[17..19] + [s[19]];
    assert s[14..] == s[14..16] + [s[16]] + s[17..];
    assert s[11..] == s[11..13] + [s[13]] + s[14..];
    assert s[8..] == s[8..10] + [s[10]] + s[11..];
    assert s[5..] == s[5..7] + [s[7]] + s[8..];
    assert s == s[0..4] + [s[4]] + s[5..];
  }

  lemma {:induction false} GroupBound(g: string)
    requires AllDigits(g)
    ensures DigitsValue(g) < Pow10(|g|)
  {
    if g != [] {
      GroupBound(g[..|g| - 1]);
    }
  }
}
