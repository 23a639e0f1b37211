/**
 * Python's naive `datetime` and `timedelta(days=n)` arithmetic. A moment is the
 * number of microseconds since 0001-01-01 00:00:00, the origin of
 * `datetime.toordinal()`.
 */
module Calendar {
  import opened Wrappers
  import opened Strings
  import opened Json

  const DayMicros: int := 86_400_000_000

  /** `date(9999, 12, 31).toordinal()`: the last day a `datetime` can hold. */
  const MaxOrdinal: int := 3_652_059

  /** The largest magnitude `timedelta` accepts for its days. */
  const MaxDeltaDays: int := 999_999_999

  datatype DateTime = DateTime(micros: int)

  /** Between `datetime.min` and `datetime.max`. */
  predicate Valid(t: DateTime)
  {
    0 <= t.micros < MaxOrdinal * DayMicros
  }

  /** The calendar day, counted from 0001-01-01 as day 0 (`toordinal() - 1`). */
  function Day(t: DateTime): int
  {
    t.micros / DayMicros
  }

  /** `weekday()`, Monday being 0: day 0, 0001-01-01, was a Monday. */
  function Weekday(t: DateTime): int
  {
    Day(t) % 7
  }

  /** `t.replace(hour=0, minute=0, second=0, microsecond=0)`. */
  function Midnight(t: DateTime): DateTime
  {
    DateTime(t.micros - t.micros % DayMicros)
  }

  /** `(a - b).days`: the difference in whole days, rounded down as `timedelta` does. */
  function DaysBetween(a: DateTime, b: DateTime): int
  {
    (a.micros - b.micros) / DayMicros
  }

  /** Adding whole days moves the calendar day by exactly that many days. */
  lemma DayShift(m: int, n: int)
    ensures (m + n * DayMicros) / DayMicros == m / DayMicros + n
    ensures (m + n * DayMicros) % DayMicros == m % DayMicros
  {
    var q, r := m / DayMicros, m % DayMicros;
    assert m == q * DayMicros + r;
    assert m + n * DayMicros == (q + n) * DayMicros + r;
  }

  /** Moving a moment back to midnight keeps its calendar day. */
  lemma MidnightDay(t: DateTime)
    ensures Day(Midnight(t)) == Day(t)
    ensures Midnight(t).micros == Day(t) * DayMicros
  {
    DayShift(0, Day(t));
  }

  /**
   * `t + timedelta(days=n)`. It raises OverflowError when `n` is out of
   * `timedelta`'s range or the sum is out of `datetime`'s.
   */
  function AddDays(t: DateTime, n: int): (r: Result<DateTime, PyError>)
    ensures r.Success? <==> -MaxDeltaDays <= n <= MaxDeltaDays && Valid(DateTime(t.micros + n * DayMicros))
    ensures r.Success? ==> Day(r.value) == Day(t) + n && r.value.micros % DayMicros == t.micros % DayMicros
    ensures r.Failure? ==> r.error.OverflowError?
  {
    DayShift(t.micros, n);
    if n < -MaxDeltaDays || n > MaxDeltaDays then
      Failure(OverflowError("days=" + IntToString(n) + "; must have magnitude <= 999999999"))
    else
      var sum := DateTime(t.micros + n * DayMicros);
      if Valid(sum) then Success(sum) else Failure(OverflowError("date value out of range"))
  }
}
