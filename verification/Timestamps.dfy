/** The stored timestamp text of internal/store/db.go: "2006-01-02T15:04:05.000000000Z".
    Retention and every ORDER BY compare these texts byte by byte and rely on that
    order being the order of the instants. */
module Timestamps {
  import opened Wrappers
  import opened Lexical
  import opened Decimal

  const NANOS_PER_SECOND: nat := 1_000_000_000
  const NANOS_PER_DAY: nat := 86_400 * NANOS_PER_SECOND

  /** A calendar day. */
  datatype Date = Date(year: nat, month: nat, day: nat)

  /** A UTC calendar time. */
  datatype Civil = Civil(year: nat, month: nat, day: nat, hour: nat, minute: nat, second: nat, nano: nat)

  predicate Leap(year: nat) {
    year % 4 == 0 && (year % 100 != 0 || year % 400 == 0)
  }

  function DaysInMonth(year: nat, month: nat): nat {
    if month == 2 then (if Leap(year) then 29 else 28)
    else if month in {4, 6, 9, 11} then 30 else 31
  }

  predicate ValidDate(year: nat, month: nat, day: nat) {
    1 <= month <= 12 && 1 <= day <= DaysInMonth(year, month)
  }

  predicate Valid(c: Civil) {
    ValidDate(c.year, c.month, c.day) && c.hour < 24 && c.minute < 60 && c.second < 60 && c.nano < NANOS_PER_SECOND
  }

  /** A time whose year has at most four digits: what the service can ever store. */
  type UtcTime = c: Civil | Valid(c) && c.year <= 9999 witness Civil(1, 1, 1, 0, 0, 0, 0)

  /** Any time: what a caller may compare stored times with. */
  type AnyTime = c: Civil | Valid(c) witness Civil(1, 1, 1, 0, 0, 0, 0)

  /** The first instant of a day. */
  function Midnight(d: Date): AnyTime
    requires ValidDate(d.year, d.month, d.day)
  {
    Civil(d.year, d.month, d.day, 0, 0, 0, 0)
  }

  // ---- instants ----

  /** Days before the first of the month, from the first of January. */
  function DaysBeforeMonth(year: nat, month: nat): nat
    requires 1 <= month <= 12
  {
    var common :=
      if month <= 2 then 31 * (month - 1)
      else if month <= 7 then 59 + 30 * (month - 3) + (month - 2) / 2
      else 212 + 30 * (month - 8) + (month - 7) / 2;
    common + (if month > 2 && Leap(year) then 1 else 0)
  }

  /** Days from 0000-01-01 to the first of January of the year, in closed form. */
  function YearStart(year: nat): nat {
    365 * year + (year + 3) / 4 - (year + 99) / 100 + (year + 399) / 400
  }

  function DayNumber(year: nat, month: nat, day: nat): nat
    requires ValidDate(year, month, day)
  {
    YearStart(year) + DaysBeforeMonth(year, month) + day - 1
  }

  /** Nanoseconds from 0000-01-01T00:00:00Z. */
  function Instant(c: Civil): int
    requires Valid(c)
  {
    DayNumber(c.year, c.month, c.day) * NANOS_PER_DAY + NanoOfDay(c)
  }

  function NanoOfDay(c: Civil): (n: nat)
    requires Valid(c)
    ensures n < NANOS_PER_DAY
  {
    ((c.hour * 60 + c.minute) * 60 + c.second) * NANOS_PER_SECOND + c.nano
  }

  lemma {:induction false} EveryFourth(year: nat)
    ensures (year + 4) / 4 - (year + 3) / 4 == if year % 4 == 0 then 1 else 0
  {
  }

  lemma {:induction false} EveryHundredth(year: nat)
    ensures (year + 100) / 100 - (year + 99) / 100 == if year % 100 == 0 then 1 else 0
  {
  }

  lemma {:induction false} EveryFourHundredth(year: nat)
    ensures (year + 400) / 400 - (year + 399) / 400 == if year % 400 == 0 then 1 else 0
  {
  }

  /** Quotient and remainder of a multiple. */
  lemma {:induction false} Multiples(k: nat)
    ensures (4 * k) / 4 == k && (4 * k) % 4 == 0 && (100 * k) / 100 == k && (100 * k) % 100 == 0
  {
  }

  lemma {:induction false} CenturiesAreFourths(year: nat)
    ensures year % 100 == 0 ==> year % 4 == 0
    ensures year % 400 == 0 ==> year % 100 == 0
  {
    Multiples(25 * (year / 100));
    Multiples(4 * (year / 400));
    if year % 100 == 0 { assert year == 4 * (25 * (year / 100)); }
    if year % 400 == 0 { assert year == 100 * (4 * (year / 400)); }
  }

  lemma {:induction false} YearLength(year: nat)
    ensures YearStart(year + 1) == YearStart(year) + 365 + (if Leap(year) then 1 else 0)
  {
    EveryFourth(year);
    EveryHundredth(year);
    EveryFourHundredth(year);
    CenturiesAreFourths(year);
    var (f, h, q) := ((year + 3) / 4, (year + 99) / 100, (year + 399) / 400);
    assert YearStart(year) == 365 * year + f - h + q;
    assert YearStart(year + 1) == 365 * year + 365 + (year + 4) / 4 - (year + 100) / 100 + (year + 400) / 400;
  }

  /** The day after, by the calendar's own rule. */
  function NextDay(d: Date): (next: Date)
    requires ValidDate(d.year, d.month, d.day)
    ensures ValidDate(next.year, next.month, next.day)
  {
    if d.day < DaysInMonth(d.year, d.month) then d.(day := d.day + 1)
    else if d.month < 12 then Date(d.year, d.month + 1, 1)
    else Date(d.year + 1, 1, 1)
  }

  lemma {:induction false} MonthLength(year: nat, month: nat)
    requires 1 <= month <= 12
    ensures month < 12 ==> DaysBeforeMonth(year, month + 1) == DaysBeforeMonth(year, month) + DaysInMonth(year, month)
    ensures DaysBeforeMonth(year, 12) + DaysInMonth(year, 12) == 365 + (if Leap(year) then 1 else 0)
  {
    hide Leap;
  }

  lemma {:induction false} DayZero()
    ensures DayNumber(0, 1, 1) == 0
  {
  }

  /** The closed form counts days: one per step of the calendar (and DayZero starts it). */
  lemma {:induction false} DayNumberCounts(d: Date)
    requires ValidDate(d.year, d.month, d.day)
    ensures var next := NextDay(d); DayNumber(next.year, next.month, next.day) == DayNumber(d.year, d.month, d.day) + 1
  {
    YearLength(d.year);
    MonthLength(d.year, d.month);
    assert DaysBeforeMonth(d.year + 1, 1) == 0;
    hide YearStart, Leap, DaysBeforeMonth, DaysInMonth;
    if d.day < DaysInMonth(d.year, d.month) {
    } else if d.month < 12 {
    } else {
      assert d.month == 12;
    }
  }

  lemma {:induction false} YearsAscend(y: nat, z: nat)
    requires y < z
    ensures YearStart(y) + DaysBeforeMonth(y, 12) + 31 <= YearStart(z)
    decreases z
  {
    YearLength(z - 1);
    YearLength(y);
    if y < z - 1 { YearsAscend(y, z - 1); }
  }

  lemma {:induction false} MonthsAscend(year: nat, m: nat, n: nat)
    requires 1 <= m < n <= 12
    ensures DaysBeforeMonth(year, m) + DaysInMonth(year, m) <= DaysBeforeMonth(year, n)
  {
  }

  predicate EarlierDate(a: Civil, b: Civil) {
    a.year < b.year || (a.year == b.year && (a.month < b.month || (a.month == b.month && a.day < b.day)))
  }

  predicate EarlierClock(a: Civil, b: Civil) {
    a.hour < b.hour || (a.hour == b.hour && (a.minute < b.minute || (a.minute == b.minute
    && (a.second < b.second || (a.second == b.second && a.nano < b.nano)))))
  }

  predicate SameDate(a: Civil, b: Civil) {
    a.year == b.year && a.month == b.month && a.day == b.day
  }

  /** Field-by-field order. */
  predicate Earlier(a: Civil, b: Civil) {
    EarlierDate(a, b) || (SameDate(a, b) && EarlierClock(a, b))
  }

  lemma {:induction false} DateOrder(a: Civil, b: Civil)
    requires Valid(a) && Valid(b) && EarlierDate(a, b)
    ensures DayNumber(a.year, a.month, a.day) < DayNumber(b.year, b.month, b.day)
  {
    if a.year < b.year {
      YearsAscend(a.year, b.year);
      if a.month < 12 { MonthsAscend(a.year, a.month, 12); }
    } else if a.month < b.month {
      MonthsAscend(a.year, a.month, b.month);
    }
  }

  lemma {:induction false} ClockOrder(a: Civil, b: Civil)
    requires Valid(a) && Valid(b)
    ensures EarlierClock(a, b) <==> NanoOfDay(a) < NanoOfDay(b)
  {
  }

  lemma {:induction false} DayThenClock(d: nat, m: nat, e: nat, n: nat)
    requires m < NANOS_PER_DAY && n < NANOS_PER_DAY
    ensures d * NANOS_PER_DAY + m < e * NANOS_PER_DAY + n <==> d < e || (d == e && m < n)
  {
  }

  /** The field order of two calendar times is the order of their instants. */
  lemma {:induction false} EarlierIsInstantOrder(a: Civil, b: Civil)
    requires Valid(a) && Valid(b)
    ensures Earlier(a, b) <==> Instant(a) < Instant(b)
  {
    ClockOrder(a, b);
    if EarlierDate(a, b) { DateOrder(a, b); }
    if EarlierDate(b, a) { DateOrder(b, a); }
    DayThenClock(DayNumber(a.year, a.month, a.day), NanoOfDay(a), DayNumber(b.year, b.month, b.day), NanoOfDay(b));
    hide DayNumber, NanoOfDay;
    assert SameDate(a, b) ==> DayNumber(a.year, a.month, a.day) == DayNumber(b.year, b.month, b.day);
  }

  lemma {:induction false} InstantInjective(a: Civil, b: Civil)
    requires Valid(a) && Valid(b) && Instant(a) == Instant(b)
    ensures a == b
  {
    EarlierIsInstantOrder(a, b);
    EarlierIsInstantOrder(b, a);
    ClockOrder(a, b);
    ClockOrder(b, a);
  }

  lemma {:induction false} DateOfDay(n: nat) returns (d: Date)
    ensures ValidDate(d.year, d.month, d.day) && DayNumber(d.year, d.month, d.day) == n
  {
    hide DayNumber;
    if n == 0 {
      d := Date(0, 1, 1);
      DayZero();
    } else {
      var before := DateOfDay(n - 1);
      DayNumberCounts(before);
      d := NextDay(before);
    }
  }

  lemma {:induction false} ClockOfNano(n: nat) returns (hour: nat, minute: nat, second: nat, nano: nat)
    requires n < NANOS_PER_DAY
    ensures hour < 24 && minute < 60 && second < 60 && nano < NANOS_PER_SECOND
    ensures ((hour * 60 + minute) * 60 + second) * NANOS_PER_SECOND + nano == n
  {
    nano := n % NANOS_PER_SECOND;
    var seconds := n / NANOS_PER_SECOND;
    second := seconds % 60;
    minute := seconds / 60 % 60;
    hour := seconds / 60 / 60;
  }

  /** Every instant is the instant of a calendar time (and, by InstantInjective, of one only). */
  lemma {:induction false} InstantSurjective(n: nat) returns (c: Civil)
    ensures Valid(c) && Instant(c) == n
  {
    hide DayNumber, ValidDate;
    var (days, rest) := (n / NANOS_PER_DAY, n % NANOS_PER_DAY);
    assert n == days * NANOS_PER_DAY + rest && rest < NANOS_PER_DAY;
    var d := DateOfDay(days);
    var hour, minute, second, nano := ClockOfNano(rest);
    c := Civil(d.year, d.month, d.day, hour, minute, second, nano);
    assert NanoOfDay(c) == rest;
  }

  // ---- text ----

  /** Go pads the year to four digits and prints a longer one in full. */
  function FormatYear(year: nat): string {
    if year <= 9999 then Padded(year, 4) else FormatUint(year)
  }

  function DateTail(c: Civil): string {
    "-" + (Padded(c.month, 2) + ("-" + Padded(c.day, 2)))
  }

  function ClockText(c: Civil): string {
    "T" + (Padded(c.hour, 2) + (":"
        + (Padded(c.minute, 2) + (":" + (Padded(c.second, 2) + ("." + (Padded(c.nano, 9) + "Z")))))))
  }

  /** formatTime */
  function FormatTime(c: Civil): string {
    FormatYear(c.year) + (DateTail(c) + ClockText(c))
  }

  /** Dividing a text into a fixed-width number and what follows it: comparison goes
      by the number first. */
  lemma {:induction false} FieldThen(m: nat, n: nat, width: nat, r: string, t: string)
    requires m < Pow10(width) && n < Pow10(width)
    ensures LexLess(Padded(m, width) + r, Padded(n, width) + t) <==> m < n || (m == n && LexLess(r, t))
  {
    PaddedOrder(m, n, width);
    LexFields(Padded(m, width), Padded(n, width), r, t);
  }

  lemma {:induction false} SeparatorThen(separator: string, r: string, t: string)
    ensures LexLess(separator + r, separator + t) <==> LexLess(r, t)
  {
    LexIrreflexive(separator);
    LexFields(separator, separator, r, t);
  }

  lemma {:induction false} Powers()
    ensures Pow10(2) == 100 && Pow10(3) == 1000 && Pow10(4) == 10_000 && Pow10(9) == NANOS_PER_SECOND
  {
    assert Pow10(3) == 1000 && Pow10(6) == 1_000_000;
  }

  lemma {:induction false} ClockTextOrder(a: Civil, b: Civil)
    requires Valid(a) && Valid(b)
    ensures LexLess(ClockText(a), ClockText(b)) <==> EarlierClock(a, b)
  {
    Powers();
    LexIrreflexive("Z");
    var (n1, n2) := (Padded(a.nano, 9) + "Z", Padded(b.nano, 9) + "Z");
    FieldThen(a.nano, b.nano, 9, "Z", "Z");
    SeparatorThen(".", n1, n2);
    var (s1, s2) := (Padded(a.second, 2) + ("." + n1), Padded(b.second, 2) + ("." + n2));
    FieldThen(a.second, b.second, 2, "." + n1, "." + n2);
    SeparatorThen(":", s1, s2);
    var (m1, m2) := (Padded(a.minute, 2) + (":" + s1), Padded(b.minute, 2) + (":" + s2));
    FieldThen(a.minute, b.minute, 2, ":" + s1, ":" + s2);
    SeparatorThen(":", m1, m2);
    FieldThen(a.hour, b.hour, 2, ":" + m1, ":" + m2);
    SeparatorThen("T", Padded(a.hour, 2) + (":" + m1), Padded(b.hour, 2) + (":" + m2));
  }

  lemma {:induction false} DateTailLayout(c: Civil)
    ensures var s := DateTail(c);
            && |s| == 6 && s[0] == '-' && s[1..3] == Padded(c.month, 2) && s[3] == '-' && s[4..6] == Padded(c.day, 2)
  {
    hide Padded;
  }

  lemma {:induction false} DateTailOrder(a: Civil, b: Civil)
    requires Valid(a) && Valid(b)
    ensures |DateTail(a)| == |DateTail(b)| == 6
    ensures LexLess(DateTail(a), DateTail(b)) <==> a.month < b.month || (a.month == b.month && a.day < b.day)
    ensures DateTail(a) == DateTail(b) <==> a.month == b.month && a.day == b.day
  {
    Powers();
    var (d1, d2) := (Padded(a.day, 2), Padded(b.day, 2));
    var (m1, m2) := (Padded(a.month, 2), Padded(b.month, 2));
    PaddedOrder(a.day, b.day, 2);
    PaddedOrder(a.month, b.month, 2);
    SeparatorThen("-", d1, d2);
    FieldThen(a.month, b.month, 2, "-" + d1, "-" + d2);
    SeparatorThen("-", m1 + ("-" + d1), m2 + ("-" + d2));
    DateTailLayout(a);
    DateTailLayout(b);
  }

  /** Byte order of the stored texts is chronological order, up to year 9999. */
  lemma {:induction false} TextOrderIsChronological(a: Civil, b: Civil)
    requires Valid(a) && Valid(b) && a.year <= 9999 && b.year <= 9999
    ensures LexLess(FormatTime(a), FormatTime(b)) <==> Instant(a) < Instant(b)
  {
    Powers();
    EarlierIsInstantOrder(a, b);
    ClockTextOrder(a, b);
    DateTailOrder(a, b);
    LexFields(DateTail(a), DateTail(b), ClockText(a), ClockText(b));
    FieldThen(a.year, b.year, 4, DateTail(a) + ClockText(a), DateTail(b) + ClockText(b));
  }

  /** A number without a leading zero is its own padding. */
  lemma {:induction false} NoLeadingZero(n: nat, width: nat)
    requires width >= 1 && Pow10(width - 1) <= n < Pow10(width)
    ensures FormatUint(n) == Padded(n, width)
  {
    if width == 1 {
      assert Pow10(1) == 10;
    } else {
      NoLeadingZero(n / 10, width - 1);
    }
  }

  /** The first four digits of a longer year. */
  function FirstDigits(year: nat): (four: nat)
    ensures four <= 9999 && (year > 9999 ==> four >= 1000)
  {
    if year <= 9999 then year else FirstDigits(year / 10)
  }

  lemma {:induction false} LongYear(year: nat) returns (more: string)
    requires year > 9999
    ensures FormatYear(year) == Padded(FirstDigits(year), 4) + more && more != [] && IsDigit(more[0])
  {
    Powers();
    var last := [Digit(year % 10)];
    if year / 10 <= 9999 {
      NoLeadingZero(year / 10, 4);
      more := last;
    } else {
      var front := LongYear(year / 10);
      more := front + last;
    }
    hide Padded, Pow10;
  }

  /** The time a bound stands for when stored times are compared with it as text: beyond the
      year 9999 only the year's first four digits are seen, and all of the year they name is
      before the bound. */
  function AsText(bound: AnyTime): (t: AnyTime)
    ensures bound.year <= 9999 ==> t == bound
  {
    if bound.year <= 9999 then bound else Midnight(Date(FirstDigits(bound.year) + 1, 1, 1))
  }

  lemma {:induction false} DashFirst(a: string, b: string)
    requires a != [] && b != [] && a[0] == '-' && IsDigit(b[0])
    ensures LexLess(a, b)
  {
  }

  lemma {:induction false} BeforeNewYear(a: Civil, year: nat)
    requires Valid(a)
    ensures Instant(a) < Instant(Midnight(Date(year + 1, 1, 1))) <==> a.year <= year
  {
    EarlierIsInstantOrder(a, Midnight(Date(year + 1, 1, 1)));
    hide Instant;
  }

  /** A stored time sorts before a longer year's exactly when its year is at most the first
      digits of that. */
  lemma {:induction false} LongYearOrder(a: UtcTime, first: nat, more: string, rest: string)
    requires first <= 9999 && more != [] && IsDigit(more[0])
    ensures LexLess(FormatTime(a), Padded(first, 4) + (more + rest)) <==> a.year <= first
  {
    var dash := DateTail(a) + ClockText(a);
    assert dash[0] == '-' && (more + rest)[0] == more[0];
    assert FormatTime(a) == Padded(a.year, 4) + dash;
    hide FormatTime, DateTail, ClockText, Padded, Valid;
    DashFirst(dash, more + rest);
    Powers();
    hide LexLess, Pow10;
    FieldThen(a.year, first, 4, dash, more + rest);
  }

  lemma {:induction false} BoundAsText(a: UtcTime, bound: AnyTime)
    ensures LexLess(FormatTime(a), FormatTime(bound)) <==> Instant(a) < Instant(AsText(bound))
  {
    hide Instant, Padded, LexLess, DateTail, ClockText, FirstDigits;
    if bound.year <= 9999 {
      TextOrderIsChronological(a, bound);
    } else {
      var (first, rest) := (FirstDigits(bound.year), DateTail(bound) + ClockText(bound));
      BeforeNewYear(a, first);
      var more := LongYear(bound.year);
      LongYearOrder(a, first, more, rest);
      assert FormatTime(bound) == Padded(first, 4) + (more + rest);
    }
  }

  /** Text order is chronological on all times up to a year exactly when that year has
      at most four digits. */
  lemma {:induction false} TextOrderRange(lastYear: nat)
    ensures (forall a: Civil, b: Civil | Valid(a) && Valid(b) && a.year <= lastYear && b.year <= lastYear ::
               LexLess(FormatTime(a), FormatTime(b)) <==> Instant(a) < Instant(b))
            <==> lastYear <= 9999
  {
    if lastYear <= 9999 {
      forall a: Civil, b: Civil | Valid(a) && Valid(b) && a.year <= lastYear && b.year <= lastYear
        ensures LexLess(FormatTime(a), FormatTime(b)) <==> Instant(a) < Instant(b)
      {
        TextOrderIsChronological(a, b);
      }
    } else {
      var (a, b) := (Civil(9999, 1, 1, 0, 0, 0, 0), Civil(10_000, 1, 1, 0, 0, 0, 0));
      BoundAsText(a, b);
      EarlierIsInstantOrder(a, b);
      EarlierIsInstantOrder(a, AsText(b));
      assert FirstDigits(10_000) == 1000;
    }
  }

  // ---- parsing ----

  /** A run of digits of the given width at a position, as a number. */
  function Field(s: string, at: nat, width: nat): Option<nat>
    requires at + width <= |s|
  {
    if AllDigits(s[at..at + width]) then Some(Value(s[at..at + width])) else None
  }

  /** A text exactly as the layout has it: the separators must be in place, every field must
      be digits, and the date must exist. */
  function ParseExact(s: string): Option<UtcTime> {
    if |s| != 30 || s[4] != '-' || s[7] != '-' || s[10] != 'T' || s[13] != ':' || s[16] != ':' || s[19] != '.'
        || s[29] != 'Z' then
      None
    else
      match (Field(s, 0, 4), Field(s, 5, 2), Field(s, 8, 2), Field(s, 11, 2), Field(s, 14, 2), Field(s, 17, 2),
          Field(s, 20, 9))
      case (Some(year), Some(month), Some(day), Some(hour), Some(minute), Some(second), Some(nano)) =>
        var c := Civil(year, month, day, hour, minute, second, nano);
        if Valid(c) && year <= 9999 then Some(c) else None
      case _ => None
  }

  /** time.Parse is lenient in three places: it takes an hour of one digit, a comma for the
      point, and a sign for the first digit of the fraction. */
  function FullHour(s: string): string {
    if |s| > 12 && !IsDigit(s[12]) then s[..11] + "0" + s[11..] else s
  }

  predicate SignAt(s: string, i: nat) {
    i < |s| && (s[i] == '+' || s[i] == '-')
  }

  /** The text with those three put right. */
  function Canonical(s: string): string {
    var t := FullHour(s);
    var u := if |t| > 19 && t[19] == ',' then t[19 := '.'] else t;
    if SignAt(u, 20) then u[20 := '0'] else u
  }

  /** time.Parse on the database layout, for texts ending in Z. A fraction must not be
      negative. */
  function ParseTime(s: string): Option<UtcTime> {
    var r := ParseExact(Canonical(s));
    if r.Some? && FullHour(s)[20] == '-' && r.value.nano != 0 then None else r
  }

  lemma {:induction false} Cut(separator: char, field: string, rest: string)
    ensures var s := [separator] + (field + rest);
            s[0] == separator && s[1..1 + |field|] == field && s[1 + |field|..] == rest
  {
  }

  lemma {:induction false} SliceOfRest(s: string, at: nat, from: nat, to: nat)
    requires at + from <= at + to <= |s|
    ensures s[at..][from..to] == s[at + from..at + to]
    ensures s[at..][from..] == s[at + from..]
  {
  }

  lemma {:induction false} ClockLayout(c: Civil)
    ensures var s := ClockText(c);
            && |s| == 20 && s[0] == 'T' && s[3] == ':' && s[6] == ':' && s[9] == '.' && s[19] == 'Z'
            && s[1..3] == Padded(c.hour, 2) && s[4..6] == Padded(c.minute, 2) && s[7..9] == Padded(c.second, 2)
            && s[10..19] == Padded(c.nano, 9)
  {
    hide Padded;
    var n := "." + (Padded(c.nano, 9) + "Z");
    var m := ":" + (Padded(c.second, 2) + n);
    var h := ":" + (Padded(c.minute, 2) + m);
    var s := "T" + (Padded(c.hour, 2) + h);
    assert s == ClockText(c);
    Cut('.', Padded(c.nano, 9), "Z");
    Cut(':', Padded(c.second, 2), n);
    Cut(':', Padded(c.minute, 2), m);
    Cut('T', Padded(c.hour, 2), h);
    Nested(s, h, m, n);
  }

  /** Positions in a tail of a tail of a tail. */
  lemma {:induction false} Nested(s: string, h: string, m: string, n: string)
    requires |s| == 20 && s[3..] == h && h[3..] == m && m[3..] == n && |n| == 11
    ensures s[3] == h[0] && s[6] == m[0] && s[9] == n[0] && s[19] == n[10]
    ensures s[4..6] == h[1..3] && s[7..9] == m[1..3] && s[10..19] == n[1..10]
  {
    assert s[6..] == m && s[9..] == n;
    SliceOfRest(s, 3, 1, 3);
    SliceOfRest(s, 6, 1, 3);
    SliceOfRest(s, 9, 1, 10);
  }

  /** Where the fields of a printed time are. */
  lemma {:induction false} Layout(c: UtcTime)
    ensures var s := FormatTime(c);
            && |s| == 30
            && s[4] == '-' && s[7] == '-' && s[10] == 'T' && s[13] == ':' && s[16] == ':' && s[19] == '.'
                && s[29] == 'Z'
            && s[0..4] == Padded(c.year, 4) && s[5..7] == Padded(c.month, 2) && s[8..10] == Padded(c.day, 2)
            && s[11..13] == Padded(c.hour, 2) && s[14..16] == Padded(c.minute, 2) && s[17..19] == Padded(c.second, 2)
            && s[20..29] == Padded(c.nano, 9)
  {
    DateTailLayout(c);
    ClockLayout(c);
    hide Padded, DateTail, ClockText;
    var (s, d, t) := (FormatTime(c), DateTail(c), ClockText(c));
    assert s[0..4] == Padded(c.year, 4) && s[4..10] == d && s[10..] == t;
    assert s[5..7] == d[1..3] && s[8..10] == d[4..6];
    assert s[11..13] == t[1..3] && s[14..16] == t[4..6] && s[17..19] == t[7..9] && s[20..29] == t[10..19];
    assert s[7] == d[3] && s[13] == t[3] && s[16] == t[6] && s[19] == t[9] && s[29] == t[19];
  }

  lemma {:induction false} ParseInvertsFormat(c: UtcTime)
    ensures ParseTime(FormatTime(c)) == Some(c)
  {
    ExactInvertsFormat(c);
    PrintedShape(c);
    var s := FormatTime(c);
    hide FormatTime, ParseExact;
    assert FullHour(s) == s && Canonical(s) == s;
  }

  lemma {:induction false} ExactInvertsFormat(c: UtcTime)
    ensures ParseExact(FormatTime(c)) == Some(c)
  {
    Powers();
    Layout(c);
    hide FormatTime, Padded, Value, Pow10, IsDigit;
  }

  /** A text of the layout's shape is given by its fields. */
  lemma {:induction false} SameFields(s: string, t: string)
    requires |s| == |t| == 30
    requires s[0..4] == t[0..4] && s[5..7] == t[5..7] && s[8..10] == t[8..10] && s[11..13] == t[11..13]
    requires s[14..16] == t[14..16] && s[17..19] == t[17..19] && s[20..29] == t[20..29]
    requires forall i | i in {4, 7, 10, 13, 16, 19, 29} :: s[i] == t[i]
    ensures s == t
  {
    assert s[0..5] == s[0..4] + [s[4]] && t[0..5] == t[0..4] + [t[4]];
    assert s[0..8] == s[0..5] + s[5..7] + [s[7]] && t[0..8] == t[0..5] + t[5..7] + [t[7]];
    assert s[0..11] == s[0..8] + s[8..10] + [s[10]] && t[0..11] == t[0..8] + t[8..10] + [t[10]];
    assert s[0..14] == s[0..11] + s[11..13] + [s[13]] && t[0..14] == t[0..11] + t[11..13] + [t[13]];
    assert s[0..17] == s[0..14] + s[14..16] + [s[16]] && t[0..17] == t[0..14] + t[14..16] + [t[16]];
    assert s[0..20] == s[0..17] + s[17..19] + [s[19]] && t[0..20] == t[0..17] + t[17..19] + [t[19]];
    assert s == s[0..20] + s[20..29] + [s[29]] && t == t[0..20] + t[20..29] + [t[29]];
  }

  lemma {:induction false} FormatInvertsExact(s: string)
    requires ParseExact(s).Some?
    ensures FormatTime(ParseExact(s).value) == s
  {
    var c := ParseExact(s).value;
    Layout(c);
    PaddedValue(s[0..4]);
    PaddedValue(s[5..7]);
    PaddedValue(s[8..10]);
    PaddedValue(s[11..13]);
    PaddedValue(s[14..16]);
    PaddedValue(s[17..19]);
    PaddedValue(s[20..29]);
    hide Padded, FormatTime, Value, Pow10;
    SameFields(s, FormatTime(c));
  }

  /** An accepted text prints back as itself with the leniencies put right; so it prints
      back unchanged exactly when it has the layout's length, a point and no sign. */
  lemma {:induction false} FormatInvertsParse(s: string)
    requires ParseTime(s).Some?
    ensures FormatTime(ParseTime(s).value) == Canonical(s)
    ensures FormatTime(ParseTime(s).value) == s <==> |s| == 30 && s[19] == '.' && IsDigit(s[20])
  {
    FormatInvertsExact(Canonical(s));
    assert |Canonical(s)| == 30;
    if |s| == 30 { assert FullHour(s) == s; }
    assert IsDigit(Canonical(s)[20..29][0]);
    hide FormatTime, ParseExact;
  }

  lemma {:induction false} LeadingZero(n: nat, width: nat)
    requires width >= 1 && n < Pow10(width - 1)
    ensures Padded(n, width)[0] == '0'
  {
    if width > 1 { LeadingZero(n / 10, width - 1); }
  }

  /** The variants of a text of the layout's shape, put right. */
  lemma {:induction false} CanonicalVariants(s: string)
    requires |s| == 30 && IsDigit(s[12]) && s[13] == ':' && s[19] == '.' && IsDigit(s[20])
    ensures FullHour(s[19 := ',']) == s[19 := ','] && Canonical(s[19 := ',']) == s
    ensures s[11] == '0' ==> Canonical(s[..11] + s[12..]) == s
    ensures s[20] == '0' ==> FullHour(s[20 := '+']) == s[20 := '+'] && Canonical(s[20 := '+']) == s
  {
    assert s[19 := ','][19 := '.'] == s;
    if s[20] == '0' { assert s[20 := '+'][20 := '0'] == s; }
    if s[11] == '0' { assert FullHour(s[..11] + s[12..]) == s; }
  }

  /** What a printed time looks like where the leniencies apply. */
  lemma {:induction false} PrintedShape(c: UtcTime)
    ensures var s := FormatTime(c);
            && |s| == 30 && IsDigit(s[12]) && s[13] == ':' && s[19] == '.' && IsDigit(s[20])
            && (c.hour < 10 ==> s[11] == '0') && (c.nano < 100_000_000 ==> s[20] == '0')
  {
    var s := FormatTime(c);
    Powers();
    assert Pow10(1) == 10 && Pow10(8) == 100_000_000;
    hide FormatTime, Padded, Value, Pow10, Valid, IsDigit;
    Layout(c);
    assert s[12] == s[11..13][1] && s[11] == s[11..13][0] && s[20] == s[20..29][0];
    if c.hour < 10 { LeadingZero(c.hour, 2); }
    if c.nano < 100_000_000 { LeadingZero(c.nano, 9); }
  }

  /** All three leniencies are used: these variants of a printed time are accepted too, and
      mean the same. */
  lemma {:induction false} LenientTexts(c: UtcTime)
    ensures var s := FormatTime(c);
            && |s| == 30 && ParseTime(s[19 := ',']) == Some(c)
            && (c.hour < 10 ==> ParseTime(s[..11] + s[12..]) == Some(c))
            && (c.nano < 100_000_000 ==> ParseTime(s[20 := '+']) == Some(c))
  {
    PrintedShape(c);
    ExactInvertsFormat(c);
    var s := FormatTime(c);
    CanonicalVariants(s);
    if s[11] == '0' { assert FullHour(s[..11] + s[12..]) == s; }
    hide FormatTime, ParseExact, Valid, Canonical;
  }
}
