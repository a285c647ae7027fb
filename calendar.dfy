/**
 * Calendar dates as Python's `datetime.date` holds them: a proleptic
 * Gregorian year, month and day, the day ordinal that `date.toordinal`
 * computes (1 January of year 1 is day 1), and the `YYYY-MM-DD` text that
 * `str(date)` produces. The lemma IsoOrder shows that comparing two such
 * texts as strings compares the dates chronologically.
 */
module Calendar {
  import opened StringOrder

  predicate IsLeap(y: int) {
    y % 4 == 0 && (y % 100 != 0 || y % 400 == 0)
  }

  function DaysInYear(y: int): int {
    if IsLeap(y) then 366 else 365
  }

  function DaysInMonth(y: int, m: int): int
    requires 1 <= m <= 12
  {
    if m == 2 then (if IsLeap(y) then 29 else 28)
    else if m == 4 || m == 6 || m == 9 || m == 11 then 30
    else 31
  }

  /** Days in the months of year `y` before month `m`. */
  function DaysBeforeMonth(y: int, m: int): int
    requires 1 <= m <= 12
  {
    var common := [0, 31, 59, 90, 120, 151, 181, 212, 243, 273, 304, 334][m - 1];
    if m > 2 && IsLeap(y) then common + 1 else common
  }

  /** Days in the years before year `y`, counting from year 1. */
  function DaysBeforeYear(y: int): int
    requires y >= 1
  {
    var y1 := y - 1;
    y1 * 365 + y1 / 4 - y1 / 100 + y1 / 400
  }

  datatype Ymd = Ymd(year: int, month: int, day: int) {
    /** The dates `datetime.date` accepts. */
    predicate Valid() {
      1 <= year <= 9999 && 1 <= month <= 12 && 1 <= day <= DaysInMonth(year, month)
    }
  }

  type Date = d: Ymd | d.Valid() witness Ymd(1, 1, 1)

  /** `date.toordinal()`. */
  function Ordinal(d: Date): int {
    DaysBeforeYear(d.year) + DaysBeforeMonth(d.year, d.month) + d.day
  }

  /** Year, then month, then day. */
  predicate Before(a: Date, b: Date) {
    a.year < b.year || (a.year == b.year && (a.month < b.month || (a.month == b.month && a.day < b.day)))
  }

  // ---------------------------------------------------------------- ordinals

  /** Dividing by `k` steps up by one exactly when `y` is a multiple of `k`. */
  lemma DivStep(y: int, k: int)
    requires y >= 1 && (k == 4 || k == 100 || k == 400)
    ensures y / k - (y - 1) / k == if y % k == 0 then 1 else 0
  {
  }

  lemma LeapDivisors(y: int)
    ensures y % 400 == 0 ==> y % 100 == 0
    ensures y % 100 == 0 ==> y % 4 == 0
  {
    var q400, q100, r100, q4, r4 := y / 400, y / 100, y % 100, y / 4, y % 4;
    assert y == 400 * q400 + y % 400;
    assert y == 100 * q100 + r100 && 0 <= r100 < 100;
    assert y == 4 * q4 + r4 && 0 <= r4 < 4;
    if y % 400 == 0 {
      assert r100 == 100 * (4 * q400 - q100);
    }
    if r100 == 0 {
      assert r4 == 4 * (25 * q100 - q4);
    }
  }

  lemma NextYear(y: int)
    requires y >= 1
    ensures DaysBeforeYear(y + 1) == DaysBeforeYear(y) + DaysInYear(y)
  {
    DivStep(y, 4);
    DivStep(y, 100);
    DivStep(y, 400);
    LeapDivisors(y);
    assert DaysBeforeYear(y + 1) - DaysBeforeYear(y)
        == 365 + (y / 4 - (y - 1) / 4) - (y / 100 - (y - 1) / 100) + (y / 400 - (y - 1) / 400);
  }

  lemma {:induction false} LaterYear(y1: int, y2: int)
    requires 1 <= y1 < y2
    ensures DaysBeforeYear(y1) + DaysInYear(y1) <= DaysBeforeYear(y2)
    decreases y2 - y1
  {
    NextYear(y1);
    if y1 + 1 < y2 {
      LaterYear(y1 + 1, y2);
    }
  }

  lemma LaterMonth(y: int, m1: int, m2: int)
    requires 1 <= m1 < m2 <= 12
    ensures DaysBeforeMonth(y, m1) + DaysInMonth(y, m1) <= DaysBeforeMonth(y, m2)
  {
  }

  lemma MonthWithinYear(y: int, m: int)
    requires 1 <= m <= 12
    ensures 0 <= DaysBeforeMonth(y, m) && DaysBeforeMonth(y, m) + DaysInMonth(y, m) <= DaysInYear(y)
  {
  }

  lemma BeforeOrdinal(a: Date, b: Date)
    requires Before(a, b)
    ensures Ordinal(a) < Ordinal(b)
  {
    if a.year < b.year {
      MonthWithinYear(a.year, a.month);
      LaterYear(a.year, b.year);
      MonthWithinYear(b.year, b.month);
    } else if a.month < b.month {
      LaterMonth(a.year, a.month, b.month);
    }
  }

  lemma BeforeTotal(a: Date, b: Date)
    ensures a == b || Before(a, b) || Before(b, a)
  {
  }

  /** The ordinal orders dates as the calendar does, and tells them apart. */
  lemma OrdinalOrder(a: Date, b: Date)
    ensures Ordinal(a) < Ordinal(b) <==> Before(a, b)
    ensures Ordinal(a) == Ordinal(b) <==> a == b
  {
    BeforeTotal(a, b);
    if Before(a, b) {
      BeforeOrdinal(a, b);
    } else if Before(b, a) {
      BeforeOrdinal(b, a);
    }
  }

  // ------------------------------------------------------------ ISO strings

  function Pow10(w: nat): nat {
    if w == 0 then 1 else 10 * Pow10(w - 1)
  }

  function Digit(n: int): char
    requires 0 <= n < 10
  {
    ('0' as int + n) as char
  }

  /** `n` written in decimal with leading zeros to exactly `w` digits. */
  function Pad(n: int, w: nat): (s: string)
    requires 0 <= n < Pow10(w)
    ensures |s| == w
  {
    if w == 0 then [] else Pad(n / 10, w - 1) + [Digit(n % 10)]
  }

  lemma {:induction false} PadOrder(x: int, y: int, w: nat)
    requires 0 <= x < Pow10(w) && 0 <= y < Pow10(w)
    ensures Less(Pad(x, w), Pad(y, w)) <==> x < y
    ensures Pad(x, w) == Pad(y, w) <==> x == y
    decreases w
  {
    if w == 0 {
      assert x == 0 && y == 0;
    } else {
      var px, py := Pad(x / 10, w - 1), Pad(y / 10, w - 1);
      var dx, dy := [Digit(x % 10)], [Digit(y % 10)];
      PadOrder(x / 10, y / 10, w - 1);
      LessConcat(px, dx, py, dy);
      assert x == 10 * (x / 10) + x % 10 && y == 10 * (y / 10) + y % 10;
      if Pad(x, w) == Pad(y, w) {
        assert px == Pad(x, w)[..w - 1] == py;
        assert dx[0] == Pad(x, w)[w - 1] == dy[0];
      }
    }
  }

  /** `str(d)` for a `datetime.date`, e.g. "2025-01-03". */
  function Iso(d: Date): (s: string)
    ensures |s| == 10
  {
    Pad(d.year, 4) + (['-'] + (Pad(d.month, 2) + (['-'] + Pad(d.day, 2))))
  }

  lemma IsoBefore(a: Date, b: Date)
    ensures Less(Iso(a), Iso(b)) <==> Before(a, b)
    ensures Iso(a) == Iso(b) <==> a == b
  {
    var ya, yb := Pad(a.year, 4), Pad(b.year, 4);
    var ma, mb := Pad(a.month, 2), Pad(b.month, 2);
    var da, db := Pad(a.day, 2), Pad(b.day, 2);
    var dash := ['-'];
    PadOrder(a.year, b.year, 4);
    PadOrder(a.month, b.month, 2);
    PadOrder(a.day, b.day, 2);
    Irreflexive(dash);
    LessConcat(dash, da, dash, db);
    LessConcat(ma, dash + da, mb, dash + db);
    LessConcat(dash, ma + (dash + da), dash, mb + (dash + db));
    LessConcat(ya, dash + (ma + (dash + da)), yb, dash + (mb + (dash + db)));
    if Iso(a) == Iso(b) {
      assert ya == Iso(a)[..4] == yb;
      assert ma == Iso(a)[5..7] == mb;
      assert da == Iso(a)[8..] == db;
    }
  }

  /**
   * Zero-padded, fixed-width `YYYY-MM-DD` strings sort as the dates they
   * name: string order is ordinal order.
   */
  lemma IsoOrder(a: Date, b: Date)
    ensures Less(Iso(a), Iso(b)) <==> Ordinal(a) < Ordinal(b)
    ensures Iso(a) == Iso(b) <==> Ordinal(a) == Ordinal(b)
  {
    IsoBefore(a, b);
    OrdinalOrder(a, b);
  }
}
