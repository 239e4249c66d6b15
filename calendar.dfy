/** UTC calendar days of JavaScript time values, and the `YYYY-MM-DD` text that
    `new Date().toISOString().split('T')[0]` produces for them. */
module Calendar {
  import opened JsValues

  const MsPerDay: int := 86_400_000

  /** ECMAScript's time range: a Date holds at most 10^8 days either side of the epoch. */
  const MaxTime: int := 8_640_000_000_000_000

  /** A JavaScript time value: milliseconds since 1970-01-01T00:00:00Z. */
  type Instant = t: int | -MaxTime <= t <= MaxTime

  /** The number of the UTC day that holds `t` (day 0 is 1970-01-01); division rounds down. */
  function DayNumber(t: int): int
  {
    t / MsPerDay
  }

  /** Two instants on the same UTC day are less than a day apart. */
  lemma SameDayClose(t1: int, t2: int)
    requires DayNumber(t1) == DayNumber(t2)
    ensures -MsPerDay < t1 - t2 < MsPerDay
  {
  }

  predicate Leap(y: int)
  {
    y % 4 == 0 && (y % 100 != 0 || y % 400 == 0)
  }

  function YearLength(y: int): int
  {
    if Leap(y) then 366 else 365
  }

  /** Days from 1970-01-01 to 1 January of year `y`, negative before 1970. */
  function YearStart(y: int): int
    decreases if y < 1970 then 1970 - y else y - 1970
  {
    if y == 1970 then 0
    else if y > 1970 then YearStart(y - 1) + YearLength(y - 1)
    else YearStart(y + 1) - YearLength(y)
  }

  lemma YearStartStep(y: int)
    ensures YearStart(y + 1) == YearStart(y) + YearLength(y)
  {
  }

  lemma {:induction false} YearStartBounds(y: int)
    ensures y >= 1970 ==> 365 * (y - 1970) <= YearStart(y)
    ensures y < 1970 ==> YearStart(y) <= -365 * (1970 - y)
    decreases if y < 1970 then 1970 - y else y - 1970
  {
    if y > 1970 {
      YearStartBounds(y - 1);
    } else if y < 1970 {
      YearStartBounds(y + 1);
    }
  }

  /** The year holding the day `d` days after 1 January of `y`, and that day's offset in its year. */
  function Locate(y: int, d: int): (r: (int, int))
    ensures 0 <= r.1 < YearLength(r.0)
    decreases if d < 0 then 1 else 0, if d < 0 then -d else d
  {
    if d < 0 then Locate(y - 1, d + YearLength(y - 1))
    else if d < YearLength(y) then (y, d)
    else Locate(y + 1, d - YearLength(y))
  }

  lemma {:induction false} LocateInverse(y: int, d: int)
    ensures YearStart(Locate(y, d).0) + Locate(y, d).1 == YearStart(y) + d
    decreases if d < 0 then 1 else 0, if d < 0 then -d else d
  {
    if d < 0 {
      LocateInverse(y - 1, d + YearLength(y - 1));
      YearStartStep(y - 1);
    } else if d >= YearLength(y) {
      LocateInverse(y + 1, d - YearLength(y));
      YearStartStep(y);
    }
  }

  /** Days of year `y` before the first day of month `m`. */
  function MonthStart(y: int, m: int): int
    requires 1 <= m <= 12
  {
    var before := [0, 31, 59, 90, 120, 151, 181, 212, 243, 273, 304, 334][m - 1];
    if m > 2 && Leap(y) then before + 1 else before
  }

  /** The month holding offset `o` of year `y`, searched downwards from month `m`. */
  function MonthFrom(y: int, m: int, o: int): (r: int)
    requires 1 <= m <= 12
    ensures 1 <= r <= m
    ensures r == 1 || MonthStart(y, r) <= o
    ensures forall k :: r < k <= m ==> o < MonthStart(y, k)
  {
    if m == 1 || MonthStart(y, m) <= o then m else MonthFrom(y, m - 1, o)
  }

  lemma MonthLengths(y: int, m: int)
    requires 1 <= m <= 12
    ensures m < 12 ==> MonthStart(y, m + 1) - MonthStart(y, m) <= 31
    ensures m == 12 ==> YearLength(y) - MonthStart(y, m) == 31
  {
  }

  datatype Date = Date(year: int, month: int, day: int)

  /** The proleptic Gregorian date of day number `n`: a real calendar date whose days
      since 1970-01-01 are `n`. */
  function DateOfDay(n: int): (r: Date)
    ensures 1 <= r.month <= 12 && 1 <= r.day <= 31
    ensures r.day <= (if r.month < 12 then MonthStart(r.year, r.month + 1) else YearLength(r.year))
                     - MonthStart(r.year, r.month)
    ensures YearStart(r.year) + MonthStart(r.year, r.month) + r.day - 1 == n
  {
    var (y, o) := Locate(1970, n);
    LocateInverse(1970, n);
    var m := MonthFrom(y, 12, o);
    MonthLengths(y, m);
    Date(y, m, o - MonthStart(y, m) + 1)
  }

  /** The proleptic Gregorian UTC date of the instant `t`. */
  function UtcDate(t: int): (r: Date)
    ensures 1 <= r.month <= 12 && 1 <= r.day <= 31
    ensures r.day <= (if r.month < 12 then MonthStart(r.year, r.month + 1) else YearLength(r.year))
                     - MonthStart(r.year, r.month)
    ensures YearStart(r.year) + MonthStart(r.year, r.month) + r.day - 1 == DayNumber(t)
  {
    DateOfDay(DayNumber(t))
  }

  /** A time value's year lies within six decimal digits. */
  lemma YearRange(t: Instant)
    ensures -1_000_000 < UtcDate(t).year < 1_000_000
  {
    var y := UtcDate(t).year;
    YearStartBounds(y);
  }

  function Pow10(w: nat): nat
  {
    if w == 0 then 1 else 10 * Pow10(w - 1)
  }

  /** The last `w` decimal digits of `n`, zero-padded. */
  function Pad(n: nat, w: nat): (r: string)
    ensures |r| == w
    ensures forall i :: 0 <= i < w ==> '0' <= r[i] <= '9'
  {
    if w == 0 then [] else Pad(n / 10, w - 1) + [DigitChar(n % 10)]
  }

  lemma {:induction false} PadInjective(a: nat, b: nat, w: nat)
    requires a < Pow10(w) && b < Pow10(w)
    requires Pad(a, w) == Pad(b, w)
    ensures a == b
  {
    if w > 0 {
      var pa, pb := Pad(a, w), Pad(b, w);
      assert pa[..w - 1] == Pad(a / 10, w - 1) && pb[..w - 1] == Pad(b / 10, w - 1);
      DropLastDigit(a, Pow10(w - 1));
      DropLastDigit(b, Pow10(w - 1));
      PadInjective(a / 10, b / 10, w - 1);
      assert DigitChar(a % 10) == pa[w - 1] == pb[w - 1] == DigitChar(b % 10);
      assert a % 10 == b % 10;
    }
  }

  lemma DropLastDigit(a: nat, p: nat)
    requires a < 10 * p
    ensures a / 10 < p && a == 10 * (a / 10) + a % 10
  {
  }

  /** The year as `toISOString` writes it: four digits, or a sign and six digits outside 0..9999. */
  function YearText(y: int): string
  {
    if 0 <= y <= 9999 then Pad(y, 4)
    else (if y < 0 then "-" else "+") + Pad(if y < 0 then -y else y, 6)
  }

  /** `t.toISOString().split('T')[0]`: the UTC date of `t` as `YYYY-MM-DD`. */
  function IsoDate(t: Instant): string
  {
    var d := UtcDate(t);
    YearText(d.year) + "-" + Pad(d.month, 2) + "-" + Pad(d.day, 2)
  }

  lemma YearTextInjective(y1: int, y2: int)
    requires -1_000_000 < y1 < 1_000_000 && -1_000_000 < y2 < 1_000_000
    requires YearText(y1) == YearText(y2)
    ensures y1 == y2
  {
    assert Pow10(4) == 10_000 && Pow10(6) == 1_000_000;
    var s := YearText(y1);
    if 0 <= y1 <= 9999 && 0 <= y2 <= 9999 {
      PadInjective(y1, y2, 4);
    } else if !(0 <= y1 <= 9999) && !(0 <= y2 <= 9999) {
      var a1, a2 := if y1 < 0 then -y1 else y1, if y2 < 0 then -y2 else y2;
      assert s[1..] == Pad(a1, 6) && YearText(y2)[1..] == Pad(a2, 6);
      PadInjective(a1, a2, 6);
      assert s[0] == (if y1 < 0 then '-' else '+') && s[0] == (if y2 < 0 then '-' else '+');
    } else {
      assert false;
    }
  }

  /** The date text names the UTC day exactly: two instants get the same text iff they
      fall on the same UTC day. */
  lemma IsoDateNamesDay(t1: Instant, t2: Instant)
    ensures IsoDate(t1) == IsoDate(t2) <==> DayNumber(t1) == DayNumber(t2)
  {
    if IsoDate(t1) == IsoDate(t2) {
      var d1, d2 := UtcDate(t1), UtcDate(t2);
      IsoDateParts(t1);
      IsoDateParts(t2);
      assert |YearText(d1.year)| == |YearText(d2.year)|;
      PadInjective(d1.day, d2.day, 2);
      PadInjective(d1.month, d2.month, 2);
      YearTextInjective(d1.year, d2.year);
      assert d1 == d2;
    }
  }

  /** The date text read back: the year, then the month and the day in two digits each. */
  lemma IsoDateParts(t: Instant)
    ensures var d, s := UtcDate(t), IsoDate(t);
      && -1_000_000 < d.year < 1_000_000
      && d.month < Pow10(2) && d.day < Pow10(2)
      && |s| == |YearText(d.year)| + 6
      && s[..|s| - 6] == YearText(d.year)
      && s[|s| - 5..|s| - 3] == Pad(d.month, 2)
      && s[|s| - 2..] == Pad(d.day, 2)
  {
    YearRange(t);
    assert Pow10(2) == 100;
  }
}
