/** The dates circle schedules step through: a plain Gregorian calendar and the JavaScript Date
    operations that addFrequency performs on a local copy. */
module Calendar {

  datatype Frequency = Weekly | BiWeekly | Monthly

  const DayMs: int := 24 * 60 * 60 * 1000

  /** Months are counted from January of year 0, so month m of year y is 12 * y + m. */
  datatype Date = Date(month: nat, day: nat)

  predicate Leap(year: nat) {
    year % 4 == 0 && (year % 100 != 0 || year % 400 == 0)
  }

  function Length(month: nat): (days: nat)
    ensures 28 <= days <= 31
  {
    match month % 12
    case 1 => if Leap(month / 12) then 29 else 28
    case 3 | 5 | 8 | 10 => 30
    case _ => 31
  }

  predicate Valid(d: Date) {
    1 <= d.day <= Length(d.month)
  }

  function MonthStart(month: nat): nat {
    if month == 0 then 0 else MonthStart(month - 1) + Length(month - 1)
  }

  function DayNumber(d: Date): int {
    MonthStart(d.month) + d.day - 1
  }

  /** The instant in milliseconds of a date at a given time of day. */
  function Instant(d: Date, timeOfDay: int): int {
    DayNumber(d) * DayMs + timeOfDay
  }

  lemma {:induction false} MonthOfYear(year: nat, i: nat)
    requires i < 12
    ensures (12 * year + i) / 12 == year && (12 * year + i) % 12 == i
  {
  }

  lemma {:induction false} LengthOf(year: nat, i: nat)
    requires i < 12
    ensures Length(12 * year + i) == match i
      case 1 => (if year % 4 == 0 && (year % 100 != 0 || year % 400 == 0) then 29 else 28)
      case 3 | 5 | 8 | 10 => 30
      case _ => 31
  {
    MonthOfYear(year, i);
  }

  lemma {:induction false} ThreeMonths(m: nat)
    ensures MonthStart(m + 3) == MonthStart(m) + Length(m) + Length(m + 1) + Length(m + 2)
  {
    hide Length;
    assert MonthStart(m + 2) == MonthStart(m + 1) + Length(m + 1);
  }

  lemma {:induction false} YearLength(year: nat)
    ensures MonthStart(12 * year + 12) - MonthStart(12 * year)
      == if year % 4 == 0 && (year % 100 != 0 || year % 400 == 0) then 366 else 365
  {
    hide Length, MonthStart;
    var m := 12 * year;
    LengthOf(year, 0); LengthOf(year, 1); LengthOf(year, 2); ThreeMonths(m);
    LengthOf(year, 3); LengthOf(year, 4); LengthOf(year, 5); ThreeMonths(m + 3);
    LengthOf(year, 6); LengthOf(year, 7); LengthOf(year, 8); ThreeMonths(m + 6);
    LengthOf(year, 9); LengthOf(year, 10); LengthOf(year, 11); ThreeMonths(m + 9);
  }

  /** Every fourth year so far, but for three of the four century years in every four hundred. */
  function LeapsBefore(year: nat): int {
    (year + 3) / 4 - (year + 99) / 100 + (year + 399) / 400
  }

  /** In closed form, the days before a year. */
  lemma {:induction false} YearStart(year: nat)
    ensures MonthStart(12 * year) == 365 * year + LeapsBefore(year)
    decreases year
  {
    hide MonthStart, Length, LeapsBefore;
    if year > 0 {
      YearStart(year - 1);
      YearLength(year - 1);
      NextLeap(year - 1);
      assert 12 * (year - 1) + 12 == 12 * year;
    } else {
      FirstMonth();
    }
  }

  lemma {:induction false} NextLeap(year: nat)
    ensures LeapsBefore(year + 1) ==
      LeapsBefore(year) + if year % 4 == 0 && (year % 100 != 0 || year % 400 == 0) then 1 else 0
  {
    AfterMultiple(year, 4);
    AfterMultiple(year, 100);
    AfterMultiple(year, 400);
    if year % 400 == 0 {
      FourCenturiesAreCenturies(year);
    }
    if year % 100 == 0 {
      CenturyIsQuarter(year);
    }
  }

  lemma {:induction false} QuotientIs(x: int, n: int, q: int)
    requires n > 0 && n * q <= x < n * q + n
    ensures x / n == q
  {
    var d := x / n - q;
    assert x == n * (x / n) + x % n == n * q + n * d + x % n;
    assert d >= 1 ==> n * d >= n;
    assert d <= -1 ==> n * d <= -n;
  }

  /** How many years so far were multiples of n goes up by one exactly after a multiple. */
  lemma {:induction false} AfterMultiple(year: nat, n: int)
    requires n > 0
    ensures (year + n) / n == (year + n - 1) / n + if year % n == 0 then 1 else 0
  {
    var q := year / n;
    assert year == n * q + year % n;
    assert n * (q + 1) == n * q + n;
    QuotientIs(year + n, n, q + 1);
    QuotientIs(year + n - 1, n, if year % n == 0 then q else q + 1);
  }

  lemma {:induction false} CenturyIsQuarter(year: nat)
    requires year % 100 == 0
    ensures year % 4 == 0
  {
    var c := year / 100;
    QuotientIs(year, 4, 25 * c);
  }

  lemma {:induction false} FourCenturiesAreCenturies(year: nat)
    requires year % 400 == 0
    ensures year % 100 == 0
  {
    var c := year / 400;
    QuotientIs(year, 100, 4 * c);
  }

  lemma {:induction false} FirstMonth()
    ensures MonthStart(0) == 0 && LeapsBefore(0) == 0
  {
  }

  /** setDate with a day past the end of the month carries into the months after it. */
  function Carry(month: nat, day: nat): (d: Date)
    requires day >= 1
    ensures Valid(d) && d.month >= month
    ensures DayNumber(d) == MonthStart(month) + day - 1
    decreases day
  {
    if day <= Length(month) then Date(month, day) else Carry(month + 1, day - Length(month))
  }

  lemma {:induction false} CarryStep(month: nat, day: nat)
    requires day >= 1
    ensures day <= Length(month) ==> Carry(month, day) == Date(month, day)
    ensures day > Length(month) ==> Carry(month, day) == Carry(month + 1, day - Length(month))
  {
    hide Length;
  }

  function Min(a: nat, b: nat): nat {
    if a <= b then a else b
  }

  function Step(d: Date, f: Frequency): Date
    requires Valid(d)
  {
    match f
    case Weekly => Carry(d.month, d.day + 7)
    case BiWeekly => Carry(d.month, d.day + 14)
    case Monthly => Date(d.month + 1, Min(d.day, Length(d.month + 1)))
  }

  /** A JavaScript Date as far as its calendar day goes. */
  class LocalDate {
    var month: nat
    var day: nat

    constructor (d: Date)
      ensures month == d.month && day == d.day
    {
      month, day := d.month, d.day;
    }

    function Value(): Date
      reads this
    {
      Date(month, day)
    }

    method SetDate(k: nat)
      requires k >= 1
      modifies this
      ensures Value() == Carry(old(month), k)
    {
      hide Length, Carry;
      day := k;
      while day > Length(month)
        invariant day >= 1
        invariant Carry(month, day) == Carry(old(month), k)
        decreases day
      {
        CarryStep(month, day);
        day := day - Length(month);
        month := month + 1;
      }
      CarryStep(month, day);
    }

    /** Only ever called on the first of a month, so there is no day to carry. */
    method SetMonth(m: nat)
      requires day == 1
      modifies this
      ensures Value() == Date(m, 1)
    {
      month := m;
    }
  }

  method AddFrequency(date: LocalDate, f: Frequency) returns (result: LocalDate)
    requires Valid(date.Value())
    ensures fresh(result) && result.Value() == Step(date.Value(), f)
  {
    result := new LocalDate(date.Value());
    match f
    case Weekly =>
      result.SetDate(result.day + 7);
    case BiWeekly =>
      result.SetDate(result.day + 14);
    case Monthly =>
      var originalDay := result.day;
      result.SetDate(1);
      result.SetMonth(result.month + 1);
      var lastDay := Length(result.month);
      result.SetDate(Min(originalDay, lastDay));
  }

  // ----- The sequence of deadlines ----------------------------------------------------------------

  function Deadline(first: Date, f: Frequency, k: nat): (d: Date)
    requires Valid(first)
    ensures Valid(d)
  {
    if k == 0 then first else Step(Deadline(first, f, k - 1), f)
  }

  /** Consecutive deadlines are exactly a week or a fortnight apart, or 28 to 31 days in a monthly
      circle, whatever months and leap years they cross. */
  lemma {:induction false} StepGap(d: Date, f: Frequency)
    requires Valid(d)
    ensures Valid(Step(d, f))
    ensures var gap := DayNumber(Step(d, f)) - DayNumber(d);
      match f
      case Weekly => gap == 7
      case BiWeekly => gap == 14
      case Monthly => 28 <= gap <= 31
  {
    assert MonthStart(d.month + 1) == MonthStart(d.month) + Length(d.month);
  }

  /** The k-th deadline of a weekly circle is 7k days after the first, of a biweekly one 14k days. */
  lemma {:induction false} WeeklyDeadline(first: Date, k: nat)
    requires Valid(first)
    ensures DayNumber(Deadline(first, Weekly, k)) == DayNumber(first) + 7 * k
    ensures DayNumber(Deadline(first, BiWeekly, k)) == DayNumber(first) + 14 * k
  {
    hide Length, Step, DayNumber;
    if k > 0 {
      WeeklyDeadline(first, k - 1);
      StepGap(Deadline(first, Weekly, k - 1), Weekly);
      StepGap(Deadline(first, BiWeekly, k - 1), BiWeekly);
    }
  }

  /** The k-th monthly deadline falls k months after the first, on the least of the first day and
      the lengths of all the months entered: a short month lowers the day for good. */
  lemma {:induction false} MonthlyDeadline(first: Date, k: nat)
    requires Valid(first)
    ensures var d := Deadline(first, Monthly, k);
      && d.month == first.month + k
      && d.day <= first.day
      && (forall m :: first.month < m <= first.month + k ==> d.day <= Length(m))
      && (d.day == first.day || exists m :: first.month < m <= first.month + k && d.day == Length(m))
  {
    hide Length;
    if k > 0 {
      MonthlyDeadline(first, k - 1);
      var before := Deadline(first, Monthly, k - 1);
      assert Step(before, Monthly) == Date(before.month + 1, Min(before.day, Length(first.month + k)));
    }
  }

  /** The day of the month survives exactly when no month entered is shorter than it. */
  lemma {:induction false} MonthlyDayKept(first: Date, k: nat)
    requires Valid(first)
    ensures Deadline(first, Monthly, k).day == first.day
       <==> forall m :: first.month < m <= first.month + k ==> first.day <= Length(m)
  {
    hide Length;
    MonthlyDeadline(first, k);
  }

  /** Each payout, 24 hours after its deadline, comes strictly before every later deadline. */
  lemma {:induction false} PayoutBeforeLaterDeadlines(first: Date, f: Frequency, timeOfDay: int, i: nat, j: nat)
    requires Valid(first) && i < j
    ensures Instant(Deadline(first, f, i), timeOfDay) + DayMs < Instant(Deadline(first, f, j), timeOfDay)
    decreases j
  {
    hide Length, Step;
    StepGap(Deadline(first, f, j - 1), f);
    if i < j - 1 {
      PayoutBeforeLaterDeadlines(first, f, timeOfDay, i, j - 1);
    }
  }
}
