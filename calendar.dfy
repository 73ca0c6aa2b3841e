/** The calendar arithmetic of JavaScript's `Date`, after the abstract
    operations DayFromYear, MakeDay, MakeTime and MakeDate of ECMA-262, on
    whole milliseconds in local time. */
module Calendar {
  import opened Strings

  const MS_PER_DAY: int := 86400000

  predicate IsLeapYear(y: int) {
    y % 4 == 0 && (y % 100 != 0 || y % 400 == 0)
  }

  function DaysInYear(y: int): int {
    if IsLeapYear(y) then 366 else 365
  }

  /** Days of month `m` (1 to 12) of year `y`. */
  function DaysInMonth(y: int, m: int): (n: int)
    requires 1 <= m <= 12
    ensures 28 <= n <= 31
  {
    if m == 2 then (if IsLeapYear(y) then 29 else 28)
    else if m == 4 || m == 6 || m == 9 || m == 11 then 30
    else 31
  }

  /** Days in the months of year `y` before the zero-based month `m0`. */
  function DaysBeforeMonth(y: int, m0: int): int
    requires 0 <= m0 <= 12
  {
    if m0 == 0 then 0 else DaysBeforeMonth(y, m0 - 1) + DaysInMonth(y, m0)
  }

  /** The day number (days since 1 January 1970) of 1 January of year `y`. */
  function DayFromYear(y: int): int {
    365 * (y - 1970) + (y - 1969) / 4 - (y - 1901) / 100 + (y - 1601) / 400
  }

  /** `new Date(y, m0, d)` as a day number, for a year already read by `ConstructorYear`: the
      month and the day may be out of range and carry into the year and the month, as JavaScript
      does. */
  function MakeDay(y: int, m0: int, d: int): int {
    var ym := y + m0 / 12;
    var mn := m0 % 12;
    DayFromYear(ym) + DaysBeforeMonth(ym, mn) + d - 1
  }

  /** The year `new Date(y, ...)` uses: a year from 0 to 99 is read as 1900 to 1999. */
  function ConstructorYear(y: int): int {
    if 0 <= y <= 99 then 1900 + y else y
  }

  function MakeTime(h: int, mi: int, s: int, ms: int): int {
    h * 3600000 + mi * 60000 + s * 1000 + ms
  }

  function MakeDate(day: int, time: int): int {
    day * MS_PER_DAY + time
  }

  /** The last millisecond of a day: 23:59:59.999. */
  const END_OF_DAY: int := MakeTime(23, 59, 59, 999)

  lemma EndOfDayIsLastMs()
    ensures END_OF_DAY == MS_PER_DAY - 1
  {
  }

  /** A date and time as its local calendar fields; `mes` is 1 to 12, `ms` the millisecond of the day. */
  datatype DateTime = DateTime(ano: int, mes: int, dia: int, ms: int)

  predicate ValidDateTime(d: DateTime) {
    1 <= d.mes <= 12 && 1 <= d.dia <= DaysInMonth(d.ano, d.mes) && 0 <= d.ms < MS_PER_DAY
  }

  /** The day number of a date. */
  function DayOf(d: DateTime): int {
    MakeDay(d.ano, d.mes - 1, d.dia)
  }

  /** The time value of a date: milliseconds since the epoch. */
  function TimeOf(d: DateTime): int {
    MakeDate(DayOf(d), d.ms)
  }

  /** Dividing by `d` rounds down: `a` and `a - 1` have the same quotient unless `a` is a multiple. */
  lemma FloorStep4(a: int)
    ensures a / 4 - (a - 1) / 4 == if a % 4 == 0 then 1 else 0
  {
    var q, r := (a - 1) / 4, (a - 1) % 4;
    assert a - 1 == 4 * q + r && 0 <= r < 4;
    if r == 3 {
      assert a == 4 * (q + 1) + 0;
    } else {
      assert a == 4 * q + (r + 1);
    }
  }

  lemma FloorStep100(a: int)
    ensures a / 100 - (a - 1) / 100 == if a % 100 == 0 then 1 else 0
  {
    var q, r := (a - 1) / 100, (a - 1) % 100;
    assert a - 1 == 100 * q + r && 0 <= r < 100;
    if r == 99 {
      assert a == 100 * (q + 1) + 0;
    } else {
      assert a == 100 * q + (r + 1);
    }
  }

  lemma FloorStep400(a: int)
    ensures a / 400 - (a - 1) / 400 == if a % 400 == 0 then 1 else 0
  {
    var q, r := (a - 1) / 400, (a - 1) % 400;
    assert a - 1 == 400 * q + r && 0 <= r < 400;
    if r == 399 {
      assert a == 400 * (q + 1) + 0;
    } else {
      assert a == 400 * q + (r + 1);
    }
  }

  lemma ShiftMod(y: int)
    ensures (y - 1968) % 4 == y % 4
    ensures (y - 1900) % 100 == y % 100
    ensures (y - 1600) % 400 == y % 400
  {
    var q4, q100, q400 := y / 4, y / 100, y / 400;
    assert y - 1968 == 4 * (q4 - 492) + y % 4;
    assert y - 1900 == 100 * (q100 - 19) + y % 100;
    assert y - 1600 == 400 * (q400 - 4) + y % 400;
  }

  /** Years follow each other without gaps: a year is `DaysInYear` days long. */
  lemma DayFromYearNext(y: int)
    ensures DayFromYear(y + 1) == DayFromYear(y) + DaysInYear(y)
  {
    LeapDays(y);
  }

  /** The leap-day terms of `DayFromYear` grow by one exactly across a leap year. */
  lemma LeapDays(y: int)
    ensures ((y - 1968) / 4 - (y - 1969) / 4) - ((y - 1900) / 100 - (y - 1901) / 100)
            + ((y - 1600) / 400 - (y - 1601) / 400) == DaysInYear(y) - 365
  {
    FloorStep4(y - 1968);
    FloorStep100(y - 1900);
    FloorStep400(y - 1600);
    ShiftMod(y);
    Divisibility(y);
  }

  /** A multiple of 400 is a multiple of 100, and a multiple of 100 one of 4. */
  lemma Divisibility(y: int)
    ensures y % 100 == 0 ==> y % 4 == 0
    ensures y % 400 == 0 ==> y % 100 == 0
  {
    if y % 100 == 0 {
      var k := y / 100;
      assert y == 4 * (25 * k);
      assert (4 * (25 * k)) % 4 == 0;
    }
    if y % 400 == 0 {
      var k := y / 400;
      assert y == 100 * (4 * k);
      assert (100 * (4 * k)) % 100 == 0;
    }
  }

  lemma DaysBeforeDecember(y: int)
    ensures DaysBeforeMonth(y, 11) + 31 == DaysInYear(y)
  {
    var feb := DaysInMonth(y, 2);
    assert DaysBeforeMonth(y, 1) == 31;
    assert DaysBeforeMonth(y, 2) == 31 + feb;
    assert DaysBeforeMonth(y, 3) == 62 + feb;
    assert DaysBeforeMonth(y, 4) == 92 + feb;
    assert DaysBeforeMonth(y, 5) == 123 + feb;
    assert DaysBeforeMonth(y, 6) == 153 + feb;
    assert DaysBeforeMonth(y, 7) == 184 + feb;
    assert DaysBeforeMonth(y, 8) == 215 + feb;
    assert DaysBeforeMonth(y, 9) == 245 + feb;
    assert DaysBeforeMonth(y, 10) == 276 + feb;
  }

  /** `new Date(y, m0 + 1, 0)`, day 0 of the next month, is the last day of the month `m0`. */
  lemma DayZeroIsLastDay(y: int, m0: int)
    requires 0 <= m0 <= 11
    ensures MakeDay(y, m0 + 1, 0) == MakeDay(y, m0, DaysInMonth(y, m0 + 1))
  {
    if m0 == 11 {
      assert 12 / 12 == 1 && 12 % 12 == 0 && 11 / 12 == 0 && 11 % 12 == 11;
      DayFromYearNext(y);
      DaysBeforeDecember(y);
    } else {
      assert (m0 + 1) / 12 == 0 && (m0 + 1) % 12 == m0 + 1;
      assert m0 / 12 == 0 && m0 % 12 == m0;
    }
  }

  /** The days of one month are consecutive: its first day is `DaysInMonth` days before the first
      day of the next month. */
  lemma MonthLength(y: int, m0: int)
    requires 0 <= m0 <= 11
    ensures MakeDay(y, m0 + 1, 1) == MakeDay(y, m0, 1) + DaysInMonth(y, m0 + 1)
  {
    DayZeroIsLastDay(y, m0);
  }

  /** `new Date(y, m0, 1)`: the first millisecond of the zero-based month `m0`, which may be out of
      range and carry into the year. */
  function StartOfMonth(y: int, m0: int): int {
    MakeDate(MakeDay(y, m0, 1), 0)
  }

  /** `new Date(y, m0 + 1, 0, 23, 59, 59, 999)`: the last millisecond of the zero-based month `m0`. */
  function EndOfMonth(y: int, m0: int): int {
    MakeDate(MakeDay(y, m0 + 1, 0), END_OF_DAY)
  }

  /** Months follow each other without gap or overlap: one ends a millisecond before the next starts. */
  lemma EndOfMonthAdjacent(y: int, m0: int)
    ensures EndOfMonth(y, m0) + 1 == StartOfMonth(y, m0 + 1)
  {
  }

  /** A month number out of range names the same month as its normalised year and month. */
  lemma MonthNormal(y: int, m0: int)
    ensures MakeDay(y, m0, 1) == MakeDay(y + m0 / 12, m0 % 12, 1)
    ensures MakeDay(y, m0 + 1, 0) == MakeDay(y + m0 / 12, m0 % 12 + 1, 0)
  {
    var mn := m0 % 12;
    assert mn / 12 == 0 && mn % 12 == mn;
    assert (m0 + 1) / 12 == m0 / 12 + (mn + 1) / 12 && (m0 + 1) % 12 == (mn + 1) % 12;
  }

  /** The year and the month (1-based) `k` months before month `m` of year `y`. */
  function MonthsBefore(y: int, m: int, k: int): (r: (int, int))
    requires 1 <= m <= 12 && 1 <= k <= 12
    ensures 1 <= r.1 <= 12 && (r.0 == y || r.0 == y - 1)
    ensures (r.0 - y) * 12 + r.1 == m - k
  {
    if m > k then (y, m - k) else (y - 1, m - k + 12)
  }

  /** The month `k` months before month `m` of year `y` starts on the first of that month. */
  lemma MonthsBeforeStart(y: int, m: int, k: int)
    requires 1 <= m <= 12 && 1 <= k <= 12
    ensures StartOfMonth(y, m - 1 - k) == TimeOf(DateTime(MonthsBefore(y, m, k).0, MonthsBefore(y, m, k).1, 1, 0))
  {
    var m0 := m - 1 - k;
    if m > k {
      assert m0 / 12 == 0 && m0 % 12 == m0;
    } else {
      assert m0 / 12 == -1 && m0 % 12 == m0 + 12;
      assert (m0 + 12) / 12 == 0 && (m0 + 12) % 12 == m0 + 12;
    }
  }

  /** Every month, even one named out of range, ends after it starts. */
  lemma MonthNotEmpty(y: int, m0: int)
    ensures StartOfMonth(y, m0) <= EndOfMonth(y, m0)
  {
    var yn, mn := y + m0 / 12, m0 % 12;
    MonthNormal(y, m0);
    DayZeroIsLastDay(yn, mn);
    var first, last := MakeDay(yn, mn, 1), MakeDay(yn, mn, DaysInMonth(yn, mn + 1));
    SameMonthDays(yn, mn, DaysInMonth(yn, mn + 1));
    assert MakeDay(y, m0, 1) <= MakeDay(y, m0 + 1, 0);
    DayOrder(MakeDay(y, m0, 1), MakeDay(y, m0 + 1, 0));
  }

  /** Day `d` of a month is `d - 1` days after its first day. */
  lemma SameMonthDays(y: int, m0: int, d: int)
    requires 0 <= m0 <= 11
    ensures MakeDay(y, m0, d) == MakeDay(y, m0, 1) + d - 1
  {
    assert m0 / 12 == 0 && m0 % 12 == m0;
  }

  /** A day starts no later than a later or the same day ends. */
  lemma DayOrder(a: int, b: int)
    requires a <= b
    ensures MakeDate(a, 0) <= MakeDate(b, END_OF_DAY)
  {
    assert a * MS_PER_DAY <= b * MS_PER_DAY;
  }

  /** An earlier month starts no later than a later one. */
  lemma {:induction false} StartOfMonthMonotone(y: int, a: int, b: int)
    requires a <= b
    ensures StartOfMonth(y, a) <= StartOfMonth(y, b)
    decreases b - a
  {
    if a < b {
      StartOfMonthMonotone(y, a + 1, b);
      EndOfMonthAdjacent(y, a);
      MonthNotEmpty(y, a);
    }
  }

  /** A date lies within the month named by its own fields, which is `DaysInMonth` days long and
      ends on its last day at 23:59:59.999. */
  lemma MonthContains(d: DateTime)
    requires ValidDateTime(d)
    ensures StartOfMonth(d.ano, d.mes - 1) <= TimeOf(d) <= EndOfMonth(d.ano, d.mes - 1)
    ensures StartOfMonth(d.ano, d.mes - 1) == TimeOf(DateTime(d.ano, d.mes, 1, 0))
    ensures EndOfMonth(d.ano, d.mes - 1) == TimeOf(DateTime(d.ano, d.mes, DaysInMonth(d.ano, d.mes), END_OF_DAY))
    ensures EndOfMonth(d.ano, d.mes - 1) - StartOfMonth(d.ano, d.mes - 1) + 1 == DaysInMonth(d.ano, d.mes) * MS_PER_DAY
  {
    DayZeroIsLastDay(d.ano, d.mes - 1);
  }

  /** `${y}-${pad2(m)}`: the `YYYY-MM` key of a month. */
  function MonthKey(y: int, m: nat): string {
    IntToString(y) + "-" + Pad2(m)
  }

  /** A date read from a record: always a real calendar day and time. */
  type Date = d: DateTime | ValidDateTime(d) witness DateTime(1970, 1, 1, 0)

  /** `monthKey(date)`: the `YYYY-MM` key of the local month of a date. */
  function MonthKeyOf(d: Date): string {
    MonthKey(d.ano, d.mes)
  }

  /** `${y}-${pad2(m)}-${pad2(d)}`: the `YYYY-MM-DD` key of a day. */
  function DayKey(y: int, m: nat, d: nat): string {
    IntToString(y) + "-" + Pad2(m) + "-" + Pad2(d)
  }
}
