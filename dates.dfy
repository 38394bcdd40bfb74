/** Instants as UTC calendar components, their order, and the ISO 8601 form that
    `Date.prototype.toISOString` writes (`YYYY-MM-DDTHH:mm:ss.sssZ`). */
module Dates {
  import opened Maybe

  datatype Date = Date(year: int, month: int, day: int, hour: int, minute: int, second: int, ms: int)

  predicate IsLeapYear(y: int) {
    (y % 4 == 0 && y % 100 != 0) || y % 400 == 0
  }

  function DaysInMonth(y: int, m: int): (n: int)
    requires 1 <= m <= 12
    ensures 28 <= n <= 31
  {
    if m == 2 then (if IsLeapYear(y) then 29 else 28)
    else if m == 4 || m == 6 || m == 9 || m == 11 then 30
    else 31
  }

  /** A date `toISOString` writes with a four-digit year. */
  predicate Valid(d: Date) {
    0 <= d.year <= 9999 && 1 <= d.month <= 12 && 1 <= d.day <= DaysInMonth(d.year, d.month)
    && 0 <= d.hour < 24 && 0 <= d.minute < 60 && 0 <= d.second < 60 && 0 <= d.ms < 1000
  }

  function Fields(d: Date): seq<int> {
    [d.year, d.month, d.day, d.hour, d.minute, d.second, d.ms]
  }

  /** Lexicographic order on lists of equal length. */
  predicate LexLe(a: seq<int>, b: seq<int>)
    requires |a| == |b|
  {
    a == [] || a[0] < b[0] || (a[0] == b[0] && LexLe(a[1..], b[1..]))
  }

  /** `a <= b` on instants: for UTC components the order of time is the order of the
      components read from the year down to the millisecond. */
  predicate Le(a: Date, b: Date) {
    LexLe(Fields(a), Fields(b))
  }

  lemma {:induction false} LexLeTotal(a: seq<int>, b: seq<int>)
    requires |a| == |b|
    ensures LexLe(a, b) || LexLe(b, a)
  {
    if a != [] && a[0] == b[0] {
      LexLeTotal(a[1..], b[1..]);
    }
  }

  lemma {:induction false} LexLeAntisymmetric(a: seq<int>, b: seq<int>)
    requires |a| == |b| && LexLe(a, b) && LexLe(b, a)
    ensures a == b
  {
    if a != [] {
      LexLeAntisymmetric(a[1..], b[1..]);
      assert a == [a[0]] + a[1..] && b == [b[0]] + b[1..];
    }
  }

  /** Any two instants are ordered one way or the other, and only equal instants both ways:
      `!(a >= b)` is `a < b`. */
  lemma LeTotal(a: Date, b: Date)
    ensures Le(a, b) || Le(b, a)
    ensures Le(a, b) && Le(b, a) ==> a == b
  {
    LexLeTotal(Fields(a), Fields(b));
    if Le(a, b) && Le(b, a) {
      LexLeAntisymmetric(Fields(a), Fields(b));
      assert Fields(a)[0] == Fields(b)[0] && Fields(a)[1] == Fields(b)[1];
      assert Fields(a)[2] == Fields(b)[2] && Fields(a)[3] == Fields(b)[3];
      assert Fields(a)[4] == Fields(b)[4] && Fields(a)[5] == Fields(b)[5];
      assert Fields(a)[6] == Fields(b)[6];
    }
  }

  function Pow10(w: nat): (p: nat)
    ensures p >= 1
  {
    if w == 0 then 1 else 10 * Pow10(w - 1)
  }

  predicate IsDigit(c: char) {
    '0' <= c <= '9'
  }

  predicate AllDigits(s: string) {
    forall i :: 0 <= i < |s| ==> IsDigit(s[i])
  }

  function DigitChar(n: int): (c: char)
    requires 0 <= n < 10
    ensures IsDigit(c)
  {
    ('0' as int + n) as char
  }

  function DigitValue(c: char): (n: int)
    requires IsDigit(c)
    ensures 0 <= n < 10
  {
    c as int - '0' as int
  }

  /** `n` in decimal with leading zeros to width `w`, as `toISOString` writes each field. */
  function Pad(n: int, w: nat): (s: string)
    requires 0 <= n < Pow10(w)
    ensures |s| == w && AllDigits(s)
  {
    if w == 0 then ""
    else Pad(n / 10, w - 1) + [DigitChar(n % 10)]
  }

  /** The number a string of decimal digits denotes. */
  function Value(s: string): (n: nat)
    requires AllDigits(s)
    ensures n < Pow10(|s|)
  {
    if s == [] then 0 else Value(s[..|s| - 1]) * 10 + DigitValue(s[|s| - 1])
  }

  lemma {:induction false} ValueOfPad(n: int, w: nat)
    requires 0 <= n < Pow10(w)
    ensures Value(Pad(n, w)) == n
  {
    if w > 0 {
      var s := Pad(n, w);
      assert s[..|s| - 1] == Pad(n / 10, w - 1);
      ValueOfPad(n / 10, w - 1);
    }
  }

  lemma {:induction false} PadOfValue(s: string)
    requires AllDigits(s)
    ensures Pad(Value(s), |s|) == s
  {
    if s != [] {
      var init := s[..|s| - 1];
      PadOfValue(init);
      assert Value(s) / 10 == Value(init) && Value(s) % 10 == DigitValue(s[|s| - 1]);
      assert s == init + [s[|s| - 1]];
    }
  }

  /** `date.toISOString()` */
  function ToIsoString(d: Date): (s: string)
    requires Valid(d)
    ensures |s| == 24 && s[23] == 'Z'
  {
    Pad(d.year, 4) + "-" + Pad(d.month, 2) + "-" + Pad(d.day, 2) + "T"
    + Pad(d.hour, 2) + ":" + Pad(d.minute, 2) + ":" + Pad(d.second, 2) + "." + Pad(d.ms, 3) + "Z"
  }

  /** The punctuation of `YYYY-MM-DDTHH:mm:ss.sssZ` with a digit everywhere else. */
  predicate IsoShape(s: string) {
    |s| == 24 && s[4] == '-' && s[7] == '-' && s[10] == 'T' && s[13] == ':' && s[16] == ':'
    && s[19] == '.' && s[23] == 'Z'
    && AllDigits(s[0..4]) && AllDigits(s[5..7]) && AllDigits(s[8..10]) && AllDigits(s[11..13])
    && AllDigits(s[14..16]) && AllDigits(s[17..19]) && AllDigits(s[20..23])
  }

  /** Reads back what `ToIsoString` writes: `None` for any other text. */
  function ParseIso(s: string): (r: Option<Date>)
    ensures r.Some? ==> Valid(r.value)
  {
    if !IsoShape(s) then None
    else
      var d := Date(Value(s[0..4]), Value(s[5..7]), Value(s[8..10]), Value(s[11..13]),
                    Value(s[14..16]), Value(s[17..19]), Value(s[20..23]));
      if Valid(d) then Some(d) else None
  }

  /** Reading an ISO string back gives the instant that was written. */
  lemma ParseWritten(d: Date)
    requires Valid(d)
    ensures ParseIso(ToIsoString(d)) == Some(d)
  {
    var s := ToIsoString(d);
    assert s[0..4] == Pad(d.year, 4) && s[5..7] == Pad(d.month, 2) && s[8..10] == Pad(d.day, 2);
    assert s[11..13] == Pad(d.hour, 2) && s[14..16] == Pad(d.minute, 2);
    assert s[17..19] == Pad(d.second, 2) && s[20..23] == Pad(d.ms, 3);
    ValueOfPad(d.year, 4);
    ValueOfPad(d.month, 2);
    ValueOfPad(d.day, 2);
    ValueOfPad(d.hour, 2);
    ValueOfPad(d.minute, 2);
    ValueOfPad(d.second, 2);
    ValueOfPad(d.ms, 3);
  }

  /** Whatever `ParseIso` accepts is exactly the ISO string of the instant it returns. */
  lemma WrittenParsed(s: string)
    requires ParseIso(s).Some?
    ensures ToIsoString(ParseIso(s).value) == s
  {
    var d := ParseIso(s).value;
    PadOfValue(s[0..4]);
    PadOfValue(s[5..7]);
    PadOfValue(s[8..10]);
    PadOfValue(s[11..13]);
    PadOfValue(s[14..16]);
    PadOfValue(s[17..19]);
    PadOfValue(s[20..23]);
    var t := ToIsoString(d);
    assert t[0..4] == s[0..4] && t[5..7] == s[5..7] && t[8..10] == s[8..10];
    assert t[11..13] == s[11..13] && t[14..16] == s[14..16];
    assert t[17..19] == s[17..19] && t[20..23] == s[20..23];
    forall i | 0 <= i < 24 ensures t[i] == s[i] {
      if i < 4 { assert t[i] == t[0..4][i]; }
      else if 5 <= i < 7 { assert t[i] == t[5..7][i - 5]; }
      else if 8 <= i < 10 { assert t[i] == t[8..10][i - 8]; }
      else if 11 <= i < 13 { assert t[i] == t[11..13][i - 11]; }
      else if 14 <= i < 16 { assert t[i] == t[14..16][i - 14]; }
      else if 17 <= i < 19 { assert t[i] == t[17..19][i - 17]; }
      else if 20 <= i < 23 { assert t[i] == t[20..23][i - 20]; }
    }
  }
}
