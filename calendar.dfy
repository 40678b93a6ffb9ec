/**
 * Calendar instants as the backend compares and shifts them: ordered field by
 * field, and moved forward by whole months the way `relativedelta` does, with
 * the day clipped to the length of the target month.
 */
module Calendar {
  import opened Wrappers

  /** A date and a second of that day. */
  datatype Instant = Instant(year: int, month: int, day: int, second: int)

  predicate LeapYear(y: int) {
    (y % 4 == 0 && y % 100 != 0) || y % 400 == 0
  }

  function DaysIn(y: int, m: int): (n: int)
    requires 1 <= m <= 12
    ensures 28 <= n <= 31
  {
    if m == 2 then (if LeapYear(y) then 29 else 28)
    else if m == 4 || m == 6 || m == 9 || m == 11 then 30
    else 31
  }

  /** A real calendar instant. */
  predicate Valid(t: Instant) {
    1 <= t.month <= 12 && 1 <= t.day <= DaysIn(t.year, t.month) && 0 <= t.second < 86400
  }

  /** The months elapsed since month 1 of year 0. */
  function MonthIndex(t: Instant): int {
    t.year * 12 + (t.month - 1)
  }

  /** `a < b` on datetimes: year, then month, then day, then second. */
  predicate Earlier(a: Instant, b: Instant) {
    a.year < b.year
    || (a.year == b.year && a.month < b.month)
    || (a.year == b.year && a.month == b.month && a.day < b.day)
    || (a.year == b.year && a.month == b.month && a.day == b.day && a.second < b.second)
  }

  /** `Earlier` is a strict total order. */
  lemma EarlierIsStrictTotalOrder(a: Instant, b: Instant, c: Instant)
    ensures !Earlier(a, a)
    ensures Earlier(a, b) && Earlier(b, c) ==> Earlier(a, c)
    ensures a == b || Earlier(a, b) || Earlier(b, a)
    ensures !(Earlier(a, b) && Earlier(b, a))
  {
  }

  /** `t + relativedelta(months=n)`: same day when the target month has it, else its last day. */
  function AddMonths(t: Instant, n: nat): (r: Instant)
    requires Valid(t)
    ensures Valid(r)
    ensures MonthIndex(r) == MonthIndex(t) + n
    ensures r.second == t.second
    ensures r.day == if t.day <= DaysIn(r.year, r.month) then t.day else DaysIn(r.year, r.month)
  {
    var total := MonthIndex(t) + n;
    var y := total / 12;
    var m := total % 12 + 1;
    Instant(y, m, if t.day <= DaysIn(y, m) then t.day else DaysIn(y, m), t.second)
  }

  /** Moving forward by at least one month gives a strictly later instant. */
  lemma AddMonthsIsLater(t: Instant, n: nat)
    requires Valid(t) && n > 0
    ensures Earlier(t, AddMonths(t, n))
  {
    var r := AddMonths(t, n);
    assert MonthIndex(r) > MonthIndex(t);
    if r.year == t.year {
      assert r.month > t.month;
    } else {
      assert r.year > t.year;
    }
  }

  /** The subscription plans the backend accepts. */
  datatype Plan = Monthly | Annual

  /** The plan named by a request field, when it is one of "monthly" or "annual". */
  function PlanNamed(s: string): (p: Option<Plan>)
    ensures p == Some(Monthly) <==> s == "monthly"
    ensures p == Some(Annual) <==> s == "annual"
    ensures p.None? <==> s != "monthly" && s != "annual"
  {
    if s == "monthly" then Some(Monthly) else if s == "annual" then Some(Annual) else None
  }

  /** One month for the monthly plan, one year (twelve months) for the annual one. */
  function AddPeriod(t: Instant, p: Plan): (r: Instant)
    requires Valid(t)
    ensures Valid(r) && Earlier(t, r)
    ensures MonthIndex(r) == MonthIndex(t) + (if p.Monthly? then 1 else 12)
  {
    AddMonthsIsLater(t, if p.Monthly? then 1 else 12);
    AddMonths(t, if p.Monthly? then 1 else 12)
  }

  /** `relativedelta(years=1)` on 29 February lands on 28 February. */
  lemma LeapDayPlusOneYear()
    ensures AddPeriod(Instant(2024, 2, 29, 0), Annual) == Instant(2025, 2, 28, 0)
  {
  }
}
