/**
 * Calendar dates as the usage ledger sees them: the UTC date of "now",
 * rendered as a full-date key `YYYY-MM-DD` (`toISOString().split('T')[0]`),
 * and the retention cutoff 30 calendar days earlier (`setDate(getDate() - 30)`).
 * The ledger compares these keys with plain string `<`; the point of this
 * module is that for four-digit years this order is the calendar order.
 */
module Calendar {
  import opened JsBuiltins

  datatype Date = Date(year: int, month: int, day: int)

  /** Proleptic Gregorian leap years, as JavaScript's `Date` uses. */
  predicate IsLeapYear(y: int) {
    y % 4 == 0 && (y % 100 != 0 || y % 400 == 0)
  }

  function DaysInMonth(y: int, m: int): int {
    if m == 2 then (if IsLeapYear(y) then 29 else 28)
    else if m == 4 || m == 6 || m == 9 || m == 11 then 30
    else 31
  }

  /** A real date whose year `toISOString` writes with four digits. */
  predicate Valid(d: Date) {
    0 <= d.year <= 9999 && 1 <= d.month <= 12 && 1 <= d.day <= DaysInMonth(d.year, d.month)
  }

  /** Chronological order. */
  predicate Before(a: Date, b: Date) {
    a.year < b.year
    || (a.year == b.year && (a.month < b.month || (a.month == b.month && a.day < b.day)))
  }

  /** A position on a line on which every month has 31 days: it grows with
      time, so it bounds how far back from a date one can step. */
  function Rank(d: Date): int {
    372 * d.year + 31 * (d.month - 1) + (d.day - 1)
  }

  /** The day before `d`; only 0000-01-01 (rank 0) has none with a
      four-digit year. */
  function PrevDay(d: Date): (p: Date)
    requires Valid(d) && Rank(d) > 0
    ensures Valid(p) && Before(p, d)
    ensures Rank(d) - 4 <= Rank(p) < Rank(d)
  {
    if d.day > 1 then Date(d.year, d.month, d.day - 1)
    else if d.month > 1 then Date(d.year, d.month - 1, DaysInMonth(d.year, d.month - 1))
    else Date(d.year - 1, 12, 31)
  }

  /** No valid date lies strictly between `PrevDay(d)` and `d`: it is the
      day immediately before. */
  lemma PrevDayImmediate(d: Date, x: Date)
    requires Valid(d) && Rank(d) > 0 && Valid(x) && Before(x, d)
    ensures x == PrevDay(d) || Before(x, PrevDay(d))
  {
    if d.day == 1 && d.month > 1 && x.year == d.year && x.month == d.month - 1 {
      assert x.day <= DaysInMonth(d.year, d.month - 1);
    }
  }

  /** `date.setDate(date.getDate() - n)`: `n` calendar days earlier. */
  function DaysBefore(d: Date, n: nat): (r: Date)
    requires Valid(d) && Rank(d) >= 4 * n
    ensures Valid(r) && Rank(r) <= Rank(d) - n
    ensures n > 0 ==> Before(r, d)
    decreases n
  {
    if n == 0 then d else DaysBefore(PrevDay(d), n - 1)
  }

  /** How many days of history the ledger keeps. */
  const RetentionDays: nat := 30

  /** A clock reading the ledger can work with: a valid date from year 1 on,
      so that its cutoff still has a four-digit year. */
  predicate ClockDate(today: Date) {
    Valid(today) && today.year >= 1
  }

  /** The cutoff date of middleware/security.js: today minus 30 days. */
  function Cutoff(today: Date): (c: Date)
    requires ClockDate(today)
    ensures Valid(c) && Before(c, today)
  {
    DaysBefore(today, RetentionDays)
  }

  // ---------------------------------------------------------------------
  // Full-date keys and their order.
  // ---------------------------------------------------------------------

  function Pow10(w: nat): nat {
    if w == 0 then 1 else 10 * Pow10(w - 1)
  }

  /** `n` in exactly `width` decimal digits, with leading zeros. */
  function Pad(n: nat, width: nat): (s: string)
    ensures |s| == width
    ensures forall i :: 0 <= i < |s| ==> '0' <= s[i] <= '9'
  {
    if width == 0 then "" else Pad(n / 10, width - 1) + [DigitChar(n % 10)]
  }

  /** The full-date key `YYYY-MM-DD`. */
  function Format(d: Date): (key: string)
    requires Valid(d)
    ensures |key| == 10
    ensures key[4] == '-' && key[7] == '-'
    ensures forall i :: 0 <= i < 10 && i != 4 && i != 7 ==> '0' <= key[i] <= '9'
    ensures key[..4] == Pad(d.year, 4) && key[5..7] == Pad(d.month, 2) && key[8..] == Pad(d.day, 2)
  {
    Pad(d.year, 4) + "-" + Pad(d.month, 2) + "-" + Pad(d.day, 2)
  }

  /** Fixed-width decimal fields compare as strings the way their values compare. */
  lemma {:induction false} PadOrder(a: nat, b: nat, w: nat)
    requires a < Pow10(w) && b < Pow10(w)
    ensures LexLess(Pad(a, w), Pad(b, w)) <==> a < b
    ensures Pad(a, w) == Pad(b, w) <==> a == b
  {
    if w == 0 {
      assert a == 0 && b == 0;
    } else {
      var a', b' := a / 10, b / 10;
      assert a' < Pow10(w - 1) && b' < Pow10(w - 1);
      PadOrder(a', b', w - 1);
      var ca, cb := [DigitChar(a % 10)], [DigitChar(b % 10)];
      LexLessConcat(Pad(a', w - 1), ca, Pad(b', w - 1), cb);
      assert LexLess(ca, cb) <==> a % 10 < b % 10;
      assert a == 10 * a' + a % 10 && b == 10 * b' + b % 10;
      assert a < b <==> a' < b' || (a' == b' && a % 10 < b % 10);
      if Pad(a, w) == Pad(b, w) {
        assert Pad(a', w - 1) == Pad(a, w)[..w - 1] == Pad(b, w)[..w - 1] == Pad(b', w - 1);
        assert ca[0] == Pad(a, w)[w - 1] == Pad(b, w)[w - 1] == cb[0];
      }
    }
  }

  lemma {:induction false} DashFieldOrder(a: nat, b: nat)
    requires a < 100 && b < 100
    ensures LexLess("-" + Pad(a, 2), "-" + Pad(b, 2)) <==> a < b
    ensures "-" + Pad(a, 2) == "-" + Pad(b, 2) <==> a == b
  {
    PadOrder(a, b, 2);
    LexLessConcat("-", Pad(a, 2), "-", Pad(b, 2));
    if "-" + Pad(a, 2) == "-" + Pad(b, 2) {
      assert Pad(a, 2) == ("-" + Pad(a, 2))[1..] == ("-" + Pad(b, 2))[1..] == Pad(b, 2);
    }
  }

  lemma FormatFields(d: Date)
    requires Valid(d)
    ensures Format(d) == Pad(d.year, 4) + MonthDay(d)
  {
  }

  /** The property the retention rule relies on: comparing two full-date
      keys with string `<` is comparing the dates. */
  lemma FormatOrder(a: Date, b: Date)
    requires Valid(a) && Valid(b)
    ensures LexLess(Format(a), Format(b)) <==> Before(a, b)
  {
    FormatFields(a);
    FormatFields(b);
    PadOrder(a.year, b.year, 4);
    MonthDayOrder(a, b);
    LexLessConcat(Pad(a.year, 4), MonthDay(a), Pad(b.year, 4), MonthDay(b));
  }

  /** The `-MM-DD` tail of a key. */
  function MonthDay(d: Date): string
    requires Valid(d)
  {
    ("-" + Pad(d.month, 2)) + ("-" + Pad(d.day, 2))
  }

  lemma MonthDayOrder(a: Date, b: Date)
    requires Valid(a) && Valid(b)
    ensures LexLess(MonthDay(a), MonthDay(b)) <==> a.month < b.month || (a.month == b.month && a.day < b.day)
  {
    DashFieldOrder(a.month, b.month);
    DashFieldOrder(a.day, b.day);
    LexLessConcat("-" + Pad(a.month, 2), "-" + Pad(a.day, 2), "-" + Pad(b.month, 2), "-" + Pad(b.day, 2));
  }

  /** Distinct dates have distinct keys. */
  lemma FormatInjective(a: Date, b: Date)
    requires Valid(a) && Valid(b)
    ensures Format(a) == Format(b) <==> a == b
  {
    if a != b {
      FormatOrder(a, b);
      FormatOrder(b, a);
      LexLessIrreflexive(Format(a));
    }
  }

  /** The cutoff key sorts strictly before today's key. */
  lemma CutoffKeyBeforeTodayKey(today: Date)
    requires ClockDate(today)
    ensures LexLess(Format(Cutoff(today)), Format(today))
  {
    FormatOrder(Cutoff(today), today);
  }

  // ---------------------------------------------------------------------
  // `getTodayKey`: the part of an ISO timestamp before its `T`.
  // ---------------------------------------------------------------------

  /** `s.split('T')[0]`. */
  function BeforeFirstT(s: string): (r: string)
    ensures |r| <= |s| && r == s[..|r|]
  {
    if s == [] || s[0] == 'T' then [] else [s[0]] + BeforeFirstT(s[1..])
  }

  /** `toISOString()` of an instant on date `d`: the key, `T`, then the time. */
  function IsoTimestamp(d: Date, time: string): string
    requires Valid(d)
  {
    Format(d) + "T" + time
  }

  lemma {:induction false} BeforeFirstTOfKey(key: string, rest: string)
    requires forall i :: 0 <= i < |key| ==> key[i] != 'T'
    ensures BeforeFirstT(key + "T" + rest) == key
  {
    if key != [] {
      assert (key + "T" + rest)[1..] == key[1..] + "T" + rest;
      BeforeFirstTOfKey(key[1..], rest);
    }
  }

  /** `getTodayKey()` is the full-date key of the current UTC date. */
  lemma TodayKeyOfTimestamp(d: Date, time: string)
    requires Valid(d)
    ensures BeforeFirstT(IsoTimestamp(d, time)) == Format(d)
  {
    var key := Format(d);
    forall i | 0 <= i < |key| ensures key[i] != 'T' {
      if i < 4 {
        assert key[i] == Pad(d.year, 4)[i];
      } else if i == 4 || i == 7 {
      } else if i < 7 {
        assert key[i] == Pad(d.month, 2)[i - 5];
      } else {
        assert key[i] == Pad(d.day, 2)[i - 8];
      }
    }
    BeforeFirstTOfKey(key, time);
  }
}
