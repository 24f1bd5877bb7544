/** Quarantine deadlines are stored as RFC 3339 text and compared as text. The fraction of a second
    has 0, 3, 6 or 9 digits, whichever is the shortest exact one, so the texts of two instants may
    have different lengths; section 5.1 of RFC 3339 does not cover that case. */
module Timestamps {

  datatype Instant = Instant(year: nat, month: nat, day: nat, hour: nat, minute: nat, second: nat, nanos: nat)

  // ---------------------------------------------------------------- the calendar

  predicate IsLeap(year: nat) {
    year % 4 == 0 && (year % 100 != 0 || year % 400 == 0)
  }

  function DaysInMonth(year: nat, month: nat): nat {
    if month in {4, 6, 9, 11} then 30
    else if month == 2 then if IsLeap(year) then 29 else 28
    else 31
  }

  // Days before month `month`; month 13 is the end of the year.
  function MonthStart(year: nat, month: nat): nat {
    if month <= 1 then 0 else MonthStart(year, month - 1) + DaysInMonth(year, month - 1)
  }

  function YearStart(year: nat): nat {
    if year == 0 then 0 else YearStart(year - 1) + MonthStart(year - 1, 13)
  }

  // An instant in the years that have four digits, as chrono splits it in UTC.
  predicate InRange(t: Instant) {
    && t.year <= 9999 && 1 <= t.month <= 12 && 1 <= t.day <= DaysInMonth(t.year, t.month)
    && t.hour < 24 && t.minute < 60 && t.second < 60 && t.nanos < 1_000_000_000
  }

  function Day(t: Instant): int {
    YearStart(t.year) + MonthStart(t.year, t.month) + t.day - 1
  }

  /** Time since the start of year 0. */
  function Nanoseconds(t: Instant): int {
    (((Day(t) * 24 + t.hour) * 60 + t.minute) * 60 + t.second) * 1_000_000_000 + t.nanos
  }

  lemma {:induction false} MonthsInOrder(year: nat, m: nat, n: nat)
    requires 1 <= m < n
    ensures MonthStart(year, m) + DaysInMonth(year, m) <= MonthStart(year, n)
    decreases n
  {
    if m < n - 1 {
      MonthsInOrder(year, m, n - 1);
    }
  }

  lemma {:induction false} YearsInOrder(y: nat, z: nat)
    requires y < z
    ensures YearStart(y) + MonthStart(y, 13) <= YearStart(z)
    decreases z
  {
    if y < z - 1 {
      YearsInOrder(y, z - 1);
    }
  }

  lemma DaysInOrder(a: Instant, b: Instant)
    requires InRange(a) && InRange(b)
    ensures Day(a) < Day(b) <==>
            a.year < b.year || (a.year == b.year && (a.month < b.month || (a.month == b.month && a.day < b.day)))
    ensures Day(a) == Day(b) ==> a.year == b.year && a.month == b.month && a.day == b.day
  {
    if a.year != b.year || a.month != b.month {
      if a.year < b.year || (a.year == b.year && a.month < b.month) {
        DateBefore(a, b);
      } else {
        DateBefore(b, a);
      }
    }
  }

  lemma DateBefore(a: Instant, b: Instant)
    requires InRange(a) && InRange(b)
    requires a.year < b.year || (a.year == b.year && a.month < b.month)
    ensures Day(a) < Day(b)
  {
    MonthsInOrder(a.year, a.month, 13);
    if a.year < b.year {
      YearsInOrder(a.year, b.year);
    } else {
      MonthsInOrder(a.year, a.month, b.month);
    }
  }

  // ---------------------------------------------------------------- the text

  function Digit(n: nat): char
    requires n < 10
  {
    ('0' as int + n) as char
  }

  // The last `width` decimal digits of `n`.
  function Pad(width: nat, n: nat): (s: string)
    ensures |s| == width && forall i :: 0 <= i < width ==> '0' <= s[i] <= '9'
  {
    if width == 0 then "" else Pad(width - 1, n / 10) + [Digit(n % 10)]
  }

  const UTC := "+00:00"

  // The shortest exact fraction of 0, 3, 6 or 9 digits, then the offset.
  function Tail(nanos: nat): string {
    (if nanos == 0 then ""
     else if nanos % 1_000_000 == 0 then "." + Pad(3, nanos / 1_000_000)
     else if nanos % 1_000 == 0 then "." + Pad(6, nanos / 1_000)
     else "." + Pad(9, nanos)) + UTC
  }

  function Field(width: nat, n: nat, separator: string, rest: string): string {
    Pad(width, n) + (separator + rest)
  }

  function Text(t: Instant): string {
    Field(4, t.year, "-",
          Field(2, t.month, "-",
                Field(2, t.day, "T",
                      Field(2, t.hour, ":",
                            Field(2, t.minute, ":",
                                  Field(2, t.second, "", Tail(t.nanos)))))))
  }

  // The number that the digits spell.
  function Value(s: string): nat
    requires forall i :: 0 <= i < |s| ==> '0' <= s[i] <= '9'
  {
    if s == "" then 0
    else
      assert '0' <= s[|s| - 1] <= '9';
      10 * Value(s[..|s| - 1]) + (s[|s| - 1] as int - '0' as int)
  }

  lemma {:induction false} PadIsValue(width: nat, n: nat)
    requires n < Power10(width)
    ensures Value(Pad(width, n)) == n
  {
    if width > 0 {
      PadIsValue(width - 1, n / 10);
      assert Pad(width, n)[..width - 1] == Pad(width - 1, n / 10);
    }
  }

  // `s` spells `n` with this many digits.
  predicate Spells(s: string, width: nat, n: nat) {
    |s| == width && (forall i :: 0 <= i < width ==> '0' <= s[i] <= '9') && Value(s) == n
  }

  lemma PadSpells(width: nat, n: nat)
    requires n < Power10(width)
    ensures Spells(Pad(width, n), width, n)
  {
    PadIsValue(width, n);
  }

  /** The time of day reads `hh:mm:ss`, a fraction, `+00:00`. */
  lemma ClockReads(t: Instant) returns (hour: string, minute: string, second: string, fraction: string)
    requires InRange(t)
    ensures Clock(t) == hour + (":" + (minute + (":" + (second + (fraction + "+00:00")))))
    ensures Spells(hour, 2, t.hour) && Spells(minute, 2, t.minute) && Spells(second, 2, t.second)
    ensures IsFraction(fraction, t.nanos)
  {
    assert Power10(2) == 100;
    PadSpells(2, t.hour);
    PadSpells(2, t.minute);
    PadSpells(2, t.second);
    hour, minute, second := Pad(2, t.hour), Pad(2, t.minute), Pad(2, t.second);
    fraction := FractionOf(t.nanos);
    assert "" + Tail(t.nanos) == fraction + "+00:00";
  }

  /** The stored text reads `YYYY-MM-DDT` and the time of day. */
  lemma TextReads(t: Instant) returns (year: string, month: string, day: string)
    requires InRange(t)
    ensures Text(t) == year + ("-" + (month + ("-" + (day + ("T" + Clock(t))))))
    ensures Spells(year, 4, t.year) && Spells(month, 2, t.month) && Spells(day, 2, t.day)
  {
    assert Power10(2) == 100 && Power10(4) == 10_000;
    PadSpells(4, t.year);
    PadSpells(2, t.month);
    PadSpells(2, t.day);
    year, month, day := Pad(4, t.year), Pad(2, t.month), Pad(2, t.day);
  }

  // A dot and 3, 6 or 9 digits that spell the fraction of a second, or nothing.
  predicate IsFraction(s: string, nanos: nat) {
    || (s == "" && nanos == 0)
    || (|s| in {4, 7, 10} && s[0] == '.' && (forall i :: 1 <= i < |s| ==> '0' <= s[i] <= '9')
        && Value(s[1..]) * (if |s| == 4 then 1_000_000 else if |s| == 7 then 1_000 else 1) == nanos)
  }

  lemma FractionOf(nanos: nat) returns (fraction: string)
    requires nanos < 1_000_000_000
    ensures Tail(nanos) == fraction + "+00:00" && IsFraction(fraction, nanos)
  {
    assert Power10(3) == 1_000 && Power10(6) == 1_000_000 && Power10(9) == 1_000_000_000 by {
      assert Power10(2) == 100 && Power10(4) == 10_000 && Power10(5) == 100_000 && Power10(7) == 10_000_000;
      assert Power10(8) == 100_000_000;
    }
    if nanos == 0 {
      fraction := "";
    } else {
      var width, scale := if nanos % 1_000_000 == 0 then 3 else if nanos % 1_000 == 0 then 6 else 9,
                          if nanos % 1_000_000 == 0 then 1_000_000 else if nanos % 1_000 == 0 then 1_000 else 1;
      PadIsValue(width, nanos / scale);
      fraction := "." + Pad(width, nanos / scale);
      assert fraction[1..] == Pad(width, nanos / scale);
    }
  }

  /** A year has 366 days if it is divisible by 4, except the centuries not divisible by 400. */
  lemma YearLength(year: nat)
    ensures YearStart(year + 1) == YearStart(year) + if year % 4 == 0 && (year % 100 != 0 || year % 400 == 0) then 366 else 365
  {
    var february := DaysInMonth(year, 2);
    assert MonthStart(year, 2) == 31;
    assert MonthStart(year, 3) == 31 + february;
    assert MonthStart(year, 4) == 62 + february;
    assert MonthStart(year, 5) == 92 + february;
    assert MonthStart(year, 6) == 123 + february;
    assert MonthStart(year, 7) == 153 + february;
    assert MonthStart(year, 8) == 184 + february;
    assert MonthStart(year, 9) == 215 + february;
    assert MonthStart(year, 10) == 245 + february;
    assert MonthStart(year, 11) == 276 + february;
    assert MonthStart(year, 12) == 306 + february;
    assert MonthStart(year, 13) == 337 + february;
  }

  /** The byte order in which SQLite compares text. */
  predicate LexLess(s: string, t: string) {
    if t == "" then false
    else if s == "" then true
    else s[0] < t[0] || (s[0] == t[0] && LexLess(s[1..], t[1..]))
  }

  lemma {:induction false} LexConcat(a: string, b: string, x: string, y: string)
    requires |a| == |b|
    ensures LexLess(a + x, b + y) <==> LexLess(a, b) || (a == b && LexLess(x, y))
  {
    if a == "" {
      assert a + x == x && b + y == y;
    } else {
      LexConcat(a[1..], b[1..], x, y);
      assert (a + x)[1..] == a[1..] + x && (b + y)[1..] == b[1..] + y;
      assert a == [a[0]] + a[1..] && b == [b[0]] + b[1..];
    }
  }

  function Power10(k: nat): (p: nat)
    ensures p > 0
  {
    if k == 0 then 1 else 10 * Power10(k - 1)
  }

  lemma {:induction false} PadInOrder(width: nat, a: nat, b: nat)
    requires a < Power10(width) && b < Power10(width)
    ensures LexLess(Pad(width, a), Pad(width, b)) <==> a < b
    ensures Pad(width, a) == Pad(width, b) ==> a == b
  {
    if width > 0 {
      PadInOrder(width - 1, a / 10, b / 10);
      var p, q, c, d := Pad(width - 1, a / 10), Pad(width - 1, b / 10), [Digit(a % 10)], [Digit(b % 10)];
      LexConcat(p, q, c, d);
      assert LexLess(c, d) <==> a % 10 < b % 10;
      if p + c == q + d {
        assert p == (p + c)[..width - 1] && q == (q + d)[..width - 1];
        assert c[0] == (p + c)[width - 1] && d[0] == (q + d)[width - 1];
      }
    }
  }

  lemma FieldInOrder(width: nat, a: nat, b: nat, separator: string, x: string, y: string)
    requires a < Power10(width) && b < Power10(width)
    ensures LexLess(Field(width, a, separator, x), Field(width, b, separator, y)) <==> a < b || (a == b && LexLess(x, y))
  {
    PadInOrder(width, a, b);
    LexConcat(Pad(width, a), Pad(width, b), separator + x, separator + y);
    LexConcat(separator, separator, x, y);
    SameNotLess(separator);
    SameNotLess(Pad(width, a));
  }

  lemma {:induction false} SameNotLess(s: string)
    ensures !LexLess(s, s)
  {
    if s != "" {
      SameNotLess(s[1..]);
    }
  }

  // ---------------------------------------------------------------- fractions

  // A fraction printed three digits at a time, up to the last group that is not zero.
  function AfterMicros(c: nat): string {
    if c == 0 then UTC else Field(3, c, "", UTC)
  }

  function AfterMillis(b: nat, c: nat): string {
    if b == 0 && c == 0 then UTC else Field(3, b, "", AfterMicros(c))
  }

  function Groups(a: nat, b: nat, c: nat): string {
    Field(3, a, "", AfterMillis(b, c))
  }

  lemma PadOne(width: nat, high: nat, digit: nat)
    requires digit < 10
    ensures Pad(width + 1, high * 10 + digit) == Pad(width, high) + [Digit(digit)]
  {
    var n := high * 10 + digit;
    assert n / 10 == high && n % 10 == digit;
  }

  lemma PadDigits(width: nat, high: nat, x: nat, y: nat, z: nat)
    requires x < 10 && y < 10 && z < 10
    ensures Pad(width + 3, high * 1_000 + (x * 100 + y * 10 + z)) == Pad(width, high) + [Digit(x), Digit(y), Digit(z)]
  {
    PadOne(width, high, x);
    PadOne(width + 1, high * 10 + x, y);
    PadOne(width + 2, (high * 10 + x) * 10 + y, z);
  }

  lemma PadThree(width: nat, high: nat, low: nat)
    requires low < 1_000
    ensures Pad(width + 3, high * 1_000 + low) == Pad(width, high) + Pad(3, low)
  {
    var x, y, z := low / 100, low / 10 % 10, low % 10;
    assert low == x * 100 + y * 10 + z;
    PadDigits(width, high, x, y, z);
    PadDigits(0, 0, x, y, z);
  }

  // The fraction with these millis, micros and nanos.
  function Fraction(a: nat, b: nat, c: nat): nat {
    a * 1_000_000 + b * 1_000 + c
  }

  lemma FractionParts(a: nat, b: nat, c: nat)
    requires a < 1_000 && b < 1_000 && c < 1_000
    ensures var n := Fraction(a, b, c);
            && n % 1_000_000 == b * 1_000 + c && n / 1_000_000 == a
            && n % 1_000 == c && n / 1_000 == a * 1_000 + b
            && (a * 1_000 + b) % 1_000 == b && (a * 1_000 + b) / 1_000 == a
  {
  }

  lemma PadSix(width: nat, a: nat, b: nat, c: nat)
    requires b < 1_000 && c < 1_000
    ensures Pad(width + 6, Fraction(a, b, c)) == Pad(width, a) + (Pad(3, b) + Pad(3, c))
  {
    PadThree(width, a, b);
    PadThree(width + 3, a * 1_000 + b, c);
  }

  lemma TailIsGroups(a: nat, b: nat, c: nat)
    requires a < 1_000 && b < 1_000 && c < 1_000 && 0 < Fraction(a, b, c)
    ensures Tail(Fraction(a, b, c)) == "." + Groups(a, b, c)
  {
    FractionParts(a, b, c);
    PadThree(3, a, b);
    PadSix(3, a, b, c);
    Concatenations(Pad(3, a), Pad(3, b), Pad(3, c));
  }

  lemma Concatenations(x: string, y: string, z: string)
    ensures "." + x + UTC == "." + (x + ("" + UTC))
    ensures "." + (x + y) + UTC == "." + (x + ("" + (y + ("" + UTC))))
    ensures "." + (x + (y + z)) + UTC == "." + (x + ("" + (y + ("" + (z + ("" + UTC))))))
    ensures "" + UTC == UTC
  {
  }

  // The offset sorts before every digit, so a shorter fraction sorts before its extensions.
  lemma OffsetFirst(n: nat, rest: string)
    ensures LexLess(UTC, Field(3, n, "", rest)) && !LexLess(Field(3, n, "", rest), UTC)
  {
    assert Field(3, n, "", rest)[0] == Pad(3, n)[0];
  }

  lemma MicrosInOrder(c: nat, f: nat)
    requires c < 1_000 && f < 1_000
    ensures LexLess(AfterMicros(c), AfterMicros(f)) <==> c < f
  {
    assert Power10(3) == 1_000;
    SameNotLess(UTC);
    OffsetFirst(c, UTC);
    OffsetFirst(f, UTC);
    FieldInOrder(3, c, f, "", UTC, UTC);
  }

  lemma MillisInOrder(b: nat, c: nat, e: nat, f: nat)
    requires b < 1_000 && c < 1_000 && e < 1_000 && f < 1_000
    ensures LexLess(AfterMillis(b, c), AfterMillis(e, f)) <==> b < e || (b == e && c < f)
  {
    assert Power10(3) == 1_000;
    SameNotLess(UTC);
    OffsetFirst(b, AfterMicros(c));
    OffsetFirst(e, AfterMicros(f));
    MicrosInOrder(c, f);
    FieldInOrder(3, b, e, "", AfterMicros(c), AfterMicros(f));
  }

  lemma PositiveTailsInOrder(a: nat, b: nat, c: nat, d: nat, e: nat, f: nat)
    requires a < 1_000 && b < 1_000 && c < 1_000 && d < 1_000 && e < 1_000 && f < 1_000
    requires 0 < Fraction(a, b, c) && 0 < Fraction(d, e, f)
    ensures LexLess(Tail(Fraction(a, b, c)), Tail(Fraction(d, e, f))) <==> Fraction(a, b, c) < Fraction(d, e, f)
  {
    assert Power10(3) == 1_000;
    TailIsGroups(a, b, c);
    TailIsGroups(d, e, f);
    MillisInOrder(b, c, e, f);
    FieldInOrder(3, a, d, "", AfterMillis(b, c), AfterMillis(e, f));
    LexConcat(".", ".", Groups(a, b, c), Groups(d, e, f));
    SameNotLess(".");
  }

  lemma SplitFraction(n: nat) returns (a: nat, b: nat, c: nat)
    requires n < 1_000_000_000
    ensures a < 1_000 && b < 1_000 && c < 1_000 && n == Fraction(a, b, c)
  {
    var thousands := n / 1_000;
    a, b, c := thousands / 1_000, thousands % 1_000, n % 1_000;
  }

  lemma TailsInOrder(m: nat, n: nat)
    requires m < 1_000_000_000 && n < 1_000_000_000
    ensures LexLess(Tail(m), Tail(n)) <==> m < n
  {
    SameNotLess(UTC);
    assert Tail(0) == "" + UTC == UTC;
    var a, b, c := SplitFraction(m);
    var d, e, f := SplitFraction(n);
    if m > 0 {
      TailIsGroups(a, b, c);
    }
    if n > 0 {
      TailIsGroups(d, e, f);
    }
    if m > 0 && n > 0 {
      PositiveTailsInOrder(a, b, c, d, e, f);
    }
  }

  // ---------------------------------------------------------------- the order

  // The texts from the hour on.
  function Clock(t: Instant): string {
    Field(2, t.hour, ":", Field(2, t.minute, ":", Field(2, t.second, "", Tail(t.nanos))))
  }

  function TimeOfDay(t: Instant): int {
    ((t.hour * 60 + t.minute) * 60 + t.second) * 1_000_000_000 + t.nanos
  }

  lemma ClocksInOrder(a: Instant, b: Instant)
    requires InRange(a) && InRange(b)
    ensures LexLess(Clock(a), Clock(b)) <==> TimeOfDay(a) < TimeOfDay(b)
  {
    assert Power10(2) == 100;
    TailsInOrder(a.nanos, b.nanos);
    var sa, sb := Field(2, a.second, "", Tail(a.nanos)), Field(2, b.second, "", Tail(b.nanos));
    FieldInOrder(2, a.second, b.second, "", Tail(a.nanos), Tail(b.nanos));
    var ma, mb := Field(2, a.minute, ":", sa), Field(2, b.minute, ":", sb);
    FieldInOrder(2, a.minute, b.minute, ":", sa, sb);
    FieldInOrder(2, a.hour, b.hour, ":", ma, mb);
  }

  /** Comparing stored deadlines as text is comparing them in time, for every two instants in years
      0 to 9999. */
  lemma TextOrderIsTimeOrder(a: Instant, b: Instant)
    requires InRange(a) && InRange(b)
    ensures LexLess(Text(a), Text(b)) <==> Nanoseconds(a) < Nanoseconds(b)
  {
    assert Power10(2) == 100 && Power10(4) == 10_000;
    ClocksInOrder(a, b);
    DaysInOrder(a, b);
    var da, db := Field(2, a.day, "T", Clock(a)), Field(2, b.day, "T", Clock(b));
    FieldInOrder(2, a.day, b.day, "T", Clock(a), Clock(b));
    var ma, mb := Field(2, a.month, "-", da), Field(2, b.month, "-", db);
    FieldInOrder(2, a.month, b.month, "-", da, db);
    FieldInOrder(4, a.year, b.year, "-", ma, mb);
    assert 0 <= TimeOfDay(a) < 86_400_000_000_000 && 0 <= TimeOfDay(b) < 86_400_000_000_000;
    assert Nanoseconds(a) == Day(a) * 86_400_000_000_000 + TimeOfDay(a);
    assert Nanoseconds(b) == Day(b) * 86_400_000_000_000 + TimeOfDay(b);
  }
}
