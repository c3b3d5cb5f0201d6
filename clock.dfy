/**
 * Wall-clock values. The source reads `datetime.now()`; the model takes the instant as a
 * parameter. Two renderings are used: `strftime("%Y%m%d_%H%M%S")` for backup file names
 * and `isoformat()` / `fromisoformat()` for values stored as text.
 */
module Clock {
  import opened Wrappers

  datatype DateTime = DateTime(year: int, month: int, day: int,
                               hour: int, minute: int, second: int, microsecond: int)
  {
    /** The field ranges Python's `datetime` enforces, with the month lengths of the Gregorian calendar. */
    predicate Valid()
    {
      1 <= year <= 9999 && 1 <= month <= 12 && 1 <= day <= DaysInMonth(year, month) &&
      0 <= hour < 24 && 0 <= minute < 60 && 0 <= second < 60 && 0 <= microsecond < 1000000
    }
  }

  /** Every fourth year, except centuries not divisible by 400. */
  predicate IsLeapYear(year: int)
  {
    year % 4 == 0 && (year % 100 != 0 || year % 400 == 0)
  }

  /** The number of days in `month` of `year`; February has 29 in a leap year. */
  function DaysInMonth(year: int, month: int): (n: int)
    requires 1 <= month <= 12
    ensures 28 <= n <= 31
    ensures month == 2 ==> (n == 29 <==> IsLeapYear(year))
  {
    if month == 2 then (if IsLeapYear(year) then 29 else 28)
    else if month == 4 || month == 6 || month == 9 || month == 11 then 30
    else 31
  }

  /** Chronological order: `a <= b`. */
  predicate NotAfter(a: DateTime, b: DateTime)
  {
    if a.year != b.year then a.year < b.year
    else if a.month != b.month then a.month < b.month
    else if a.day != b.day then a.day < b.day
    else if a.hour != b.hour then a.hour < b.hour
    else if a.minute != b.minute then a.minute < b.minute
    else if a.second != b.second then a.second < b.second
    else a.microsecond <= b.microsecond
  }

  function Pow10(w: nat): (p: nat)
    ensures p >= 1
  {
    if w == 0 then 1 else 10 * Pow10(w - 1)
  }

  predicate IsDigit(c: char) { '0' <= c <= '9' }

  function DigitChar(d: int): (c: char)
    requires 0 <= d < 10
    ensures IsDigit(c)
  {
    ('0' as int + d) as char
  }

  /** `n` written with exactly `w` decimal digits, zero-padded on the left. */
  function Digits(n: nat, w: nat): (s: string)
    ensures |s| == w
    ensures forall i :: 0 <= i < |s| ==> IsDigit(s[i])
  {
    if w == 0 then "" else Digits(n / 10, w - 1) + [DigitChar(n % 10)]
  }

  /** The value of a string of decimal digits. */
  function ParseDigits(s: string): nat
    requires forall i :: 0 <= i < |s| ==> IsDigit(s[i])
  {
    if s == [] then 0
    else
      var last := s[|s| - 1];
      assert IsDigit(last);
      ParseDigits(s[..|s| - 1]) * 10 + (last as int - '0' as int)
  }

  /** Reading back a zero-padded rendering gives the number that was written. */
  lemma {:induction false} ParseDigitsOfDigits(n: nat, w: nat)
    requires n < Pow10(w)
    ensures ParseDigits(Digits(n, w)) == n
  {
    if w > 0 {
      ParseDigitsOfDigits(n / 10, w - 1);
      var s := Digits(n, w);
      assert s[..|s| - 1] == Digits(n / 10, w - 1);
    }
  }

  /** `strftime("%Y%m%d_%H%M%S")`: fifteen characters, seconds resolution. */
  function Stamp(d: DateTime): (s: string)
    requires d.Valid()
    ensures |s| == 15 && s[8] == '_'
    ensures forall k :: 0 <= k < |s| ==> IsDigit(s[k]) || s[k] == '_'
  {
    Digits(d.year, 4) + Digits(d.month, 2) + Digits(d.day, 2) + "_" +
    Digits(d.hour, 2) + Digits(d.minute, 2) + Digits(d.second, 2)
  }

  /** Two stamps are equal exactly when the instants agree to the second. */
  lemma StampInjective(a: DateTime, b: DateTime)
    requires a.Valid() && b.Valid()
    ensures Stamp(a) == Stamp(b) <==>
      (a.year, a.month, a.day, a.hour, a.minute, a.second) ==
      (b.year, b.month, b.day, b.hour, b.minute, b.second)
  {
    if Stamp(a) == Stamp(b) {
      var s, t := Stamp(a), Stamp(b);
      assert s[0..4] == Digits(a.year, 4) && t[0..4] == Digits(b.year, 4);
      assert s[4..6] == Digits(a.month, 2) && t[4..6] == Digits(b.month, 2);
      assert s[6..8] == Digits(a.day, 2) && t[6..8] == Digits(b.day, 2);
      assert s[9..11] == Digits(a.hour, 2) && t[9..11] == Digits(b.hour, 2);
      assert s[11..13] == Digits(a.minute, 2) && t[11..13] == Digits(b.minute, 2);
      assert s[13..15] == Digits(a.second, 2) && t[13..15] == Digits(b.second, 2);
      ParseDigitsOfDigits(a.year, 4); ParseDigitsOfDigits(b.year, 4);
      ParseDigitsOfDigits(a.month, 2); ParseDigitsOfDigits(b.month, 2);
      ParseDigitsOfDigits(a.day, 2); ParseDigitsOfDigits(b.day, 2);
      ParseDigitsOfDigits(a.hour, 2); ParseDigitsOfDigits(b.hour, 2);
      ParseDigitsOfDigits(a.minute, 2); ParseDigitsOfDigits(b.minute, 2);
      ParseDigitsOfDigits(a.second, 2); ParseDigitsOfDigits(b.second, 2);
    }
  }

  /** `isoformat()`: `YYYY-MM-DDTHH:MM:SS`, followed by `.ffffff` when microseconds are non-zero. */
  function Iso(d: DateTime): (s: string)
    requires d.Valid()
    ensures |s| == 19 || |s| == 26
  {
    Digits(d.year, 4) + "-" + Digits(d.month, 2) + "-" + Digits(d.day, 2) + "T" +
    Digits(d.hour, 2) + ":" + Digits(d.minute, 2) + ":" + Digits(d.second, 2) +
    (if d.microsecond == 0 then "" else "." + Digits(d.microsecond, 6))
  }

  predicate AllDigits(s: string, lo: int, hi: int)
    requires 0 <= lo <= hi <= |s|
  {
    forall i :: lo <= i < hi ==> IsDigit(s[i])
  }

  /** The two text shapes `isoformat()` writes. */
  predicate IsoShaped(s: string)
  {
    (|s| == 19 || (|s| == 26 && s[19] == '.' && AllDigits(s, 20, 26))) &&
    s[4] == '-' && s[7] == '-' && s[10] == 'T' && s[13] == ':' && s[16] == ':' &&
    AllDigits(s, 0, 4) && AllDigits(s, 5, 7) && AllDigits(s, 8, 10) &&
    AllDigits(s, 11, 13) && AllDigits(s, 14, 16) && AllDigits(s, 17, 19)
  }

  function IsoFields(s: string): DateTime
    requires IsoShaped(s)
  {
    DateTime(ParseDigits(s[0..4]), ParseDigits(s[5..7]), ParseDigits(s[8..10]),
             ParseDigits(s[11..13]), ParseDigits(s[14..16]), ParseDigits(s[17..19]),
             if |s| == 26 then ParseDigits(s[20..26]) else 0)
  }

  /**
   * `datetime.fromisoformat`, narrowed to the two shapes `isoformat()` writes: any other text,
   * including ISO forms Python would also accept, is refused here. As in Python, a day the
   * month does not have (the 30th of February) is refused.
   */
  function FromIso(s: string): (r: Result<DateTime>)
    ensures r.Ok? ==> r.value.Valid()
  {
    if IsoShaped(s) && IsoFields(s).Valid() then Ok(IsoFields(s))
    else Err("Invalid isoformat string: " + s)
  }

  /** Two digits read as a number. */
  lemma ParseTwoDigits(s: string)
    requires |s| == 2 && IsDigit(s[0]) && IsDigit(s[1])
    ensures ParseDigits(s) == 10 * (s[0] as int - '0' as int) + (s[1] as int - '0' as int)
  {
    var head := s[..|s| - 1];
    assert |head| == 1 && head[0] == s[0] && IsDigit(head[0]);
    assert head[..|head| - 1] == [];
    assert ParseDigits(head) == ParseDigits([]) * 10 + (s[0] as int - '0' as int);
  }

  /** 2024 is a leap year: its 29 February is a valid instant and reads back. */
  lemma LeapDayReadsBack()
    ensures FromIso(Iso(DateTime(2024, 2, 29, 0, 0, 0, 0))) == Ok(DateTime(2024, 2, 29, 0, 0, 0, 0))
  {
    IsoRoundTrip(DateTime(2024, 2, 29, 0, 0, 0, 0));
  }

  /** The 30th of February is refused, as `fromisoformat` refuses it. */
  lemma ImpossibleDayRefused()
    ensures FromIso("2024-02-30T00:00:00").Err?
  {
    var s := "2024-02-30T00:00:00";
    if IsoShaped(s) {
      var mo, dd := s[5..7], s[8..10];
      assert mo[0] == '0' && mo[1] == '2' && dd[0] == '3' && dd[1] == '0';
      ParseTwoDigits(mo);
      ParseTwoDigits(dd);
    }
  }

  /** A slice holding a zero-padded rendering reads back as its number. */
  lemma SliceOfDigits(s: string, lo: int, n: nat, w: nat)
    requires 0 <= lo && lo + w <= |s| && s[lo..lo + w] == Digits(n, w) && n < Pow10(w)
    ensures AllDigits(s, lo, lo + w) && ParseDigits(s[lo..lo + w]) == n
  {
    ParseDigitsOfDigits(n, w);
    forall i | lo <= i < lo + w ensures IsDigit(s[i]) {
      assert s[i] == s[lo..lo + w][i - lo];
    }
  }

  /** Where each field of the `isoformat()` layout sits, whatever the fields hold. */
  lemma IsoLayout(y: string, mo: string, dd: string, h: string, mi: string, se: string, tail: string)
    requires |y| == 4 && |mo| == 2 && |dd| == 2 && |h| == 2 && |mi| == 2 && |se| == 2
    ensures var s := y + "-" + mo + "-" + dd + "T" + h + ":" + mi + ":" + se + tail;
      s[0..4] == y && s[4] == '-' && s[5..7] == mo && s[7] == '-' && s[8..10] == dd &&
      s[10] == 'T' && s[11..13] == h && s[13] == ':' && s[14..16] == mi && s[16] == ':' &&
      s[17..19] == se && s[19..] == tail
  {
  }

  /** A string laid out as `isoformat()` lays it out, with each field rendered from `d`, reads back as `d`. */
  lemma IsoFieldsFromLayout(s: string, d: DateTime)
    requires d.Valid() && (|s| == 19 || |s| == 26)
    requires s[4] == '-' && s[7] == '-' && s[10] == 'T' && s[13] == ':' && s[16] == ':'
    requires s[0..4] == Digits(d.year, 4) && s[5..7] == Digits(d.month, 2)
    requires s[8..10] == Digits(d.day, 2) && s[11..13] == Digits(d.hour, 2)
    requires s[14..16] == Digits(d.minute, 2) && s[17..19] == Digits(d.second, 2)
    requires |s| == 19 ==> d.microsecond == 0
    requires |s| == 26 ==> s[19] == '.' && s[20..26] == Digits(d.microsecond, 6)
    ensures IsoShaped(s) && IsoFields(s) == d
  {
    SliceOfDigits(s, 0, d.year, 4);
    SliceOfDigits(s, 5, d.month, 2);
    SliceOfDigits(s, 8, d.day, 2);
    SliceOfDigits(s, 11, d.hour, 2);
    SliceOfDigits(s, 14, d.minute, 2);
    SliceOfDigits(s, 17, d.second, 2);
    if |s| == 26 {
      SliceOfDigits(s, 20, d.microsecond, 6);
    }
  }

  /** Reading back what `isoformat()` wrote gives the same instant. */
  lemma IsoRoundTrip(d: DateTime)
    requires d.Valid()
    ensures FromIso(Iso(d)) == Ok(d)
  {
    var tail := if d.microsecond == 0 then "" else "." + Digits(d.microsecond, 6);
    var s := Iso(d);
    IsoLayout(Digits(d.year, 4), Digits(d.month, 2), Digits(d.day, 2),
              Digits(d.hour, 2), Digits(d.minute, 2), Digits(d.second, 2), tail);
    if d.microsecond != 0 {
      assert s[20..26] == s[19..][1..];
    }
    IsoFieldsFromLayout(s, d);
  }
}
