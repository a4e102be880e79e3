/**
 * Timesheets and the amount owed for them (`Timesheet::total_all`).
 *
 * A timesheet is one continuous period of work; it is closed once it has an
 * end time. The total owed for a list of timesheets at one hourly rate is the
 * hourly rate times the whole hours-worth of seconds of every closed
 * timesheet, plus the cost of every expense on a closed timesheet, rounded
 * to cents. Amounts are exact reals until that final rounding.
 */
module Timesheets {
  import opened Wrappers
  import opened Decimals

  /** Database identifier; opaque to the computations here. */
  type Id = int

  /** A point in time, in nanoseconds since the Unix epoch (UTC). */
  type Instant = int

  const NanosPerSecond: int := 1_000_000_000
  const SecondsPerHour: real := 3600.0

  /** The employee who did the work; only its identity is part of this model. */
  datatype Employee = Employee(id: Id)

  /** The job that was worked on; only its identity is part of this model. */
  datatype Job = Job(id: Id)

  /** A business expense incurred during a period of work. */
  datatype Expense = Expense(id: Id, category: string, cost: Money, description: string)

  /** A continuous period of work; `timeEnd` is `None` while the work is ongoing. */
  datatype Timesheet = Timesheet(
    id: Id,
    employee: Employee,
    expenses: seq<Expense>,
    job: Job,
    timeBegin: Instant,
    timeEnd: Option<Instant>,
    workNotes: string)

  /**
   * The whole seconds in a span of `nanos` nanoseconds, truncated toward
   * zero (as `num_seconds` does for negative spans too).
   */
  function WholeSeconds(nanos: int): (s: int)
    ensures 0 <= nanos ==> 0 <= s * NanosPerSecond <= nanos < (s + 1) * NanosPerSecond
    ensures nanos < 0 ==> (s - 1) * NanosPerSecond < nanos <= s * NanosPerSecond <= 0
  {
    if nanos >= 0 then nanos / NanosPerSecond else -((-nanos) / NanosPerSecond)
  }

  /** The whole seconds from the beginning to the end of a closed timesheet. */
  function ElapsedSeconds(t: Timesheet): (s: int)
    requires t.timeEnd.Some?
  {
    WholeSeconds(t.timeEnd.value - t.timeBegin)
  }

  /** The labour cost of a closed timesheet at `rate` per hour. */
  function Labour(t: Timesheet, rate: real): (r: real)
    requires t.timeEnd.Some?
  {
    rate * (ElapsedSeconds(t) as real / SecondsPerHour)
  }

  /** The sum of the costs of `expenses`, added in order. */
  function ExpenseSum(expenses: seq<Expense>): (r: real)
  {
    if expenses == [] then 0.0
    else ExpenseSum(expenses[..|expenses| - 1]) + expenses[|expenses| - 1].cost.amount.Value()
  }

  /** What one timesheet adds to the total: nothing while it is ongoing. */
  function Contribution(t: Timesheet, hourlyRate: Money): (r: real)
  {
    match t.timeEnd
    case None => 0.0
    case Some(_) => Labour(t, hourlyRate.amount.Value()) + ExpenseSum(t.expenses)
  }

  /** The unrounded total after accumulating `timesheets` from left to right. */
  function RunningTotal(timesheets: seq<Timesheet>, hourlyRate: Money): (r: real)
  {
    if timesheets == [] then 0.0
    else RunningTotal(timesheets[..|timesheets| - 1], hourlyRate)
         + Contribution(timesheets[|timesheets| - 1], hourlyRate)
  }

  /**
   * Every expense on a closed timesheet is in `currency`. Adding an expense
   * in another currency to the total panics, so this is what the total
   * demands of its caller; ongoing timesheets are never looked at.
   */
  predicate ExpensesInCurrency(timesheets: seq<Timesheet>, currency: Currency)
  {
    forall i, j :: 0 <= i < |timesheets| && timesheets[i].timeEnd.Some? && 0 <= j < |timesheets[i].expenses| ==>
      timesheets[i].expenses[j].cost.currency == currency
  }

  /** The amount owed for `timesheets` at `hourlyRate`, in its currency and rounded to cents. */
  function TotalAllSpec(timesheets: seq<Timesheet>, hourlyRate: Money): (r: Money)
    requires ExpensesInCurrency(timesheets, hourlyRate.currency)
    ensures r.currency == hourlyRate.currency
    ensures r.amount.scale == 2
    ensures -1.0 <= 2.0 * (r.amount.mantissa as real - 100.0 * RunningTotal(timesheets, hourlyRate)) <= 1.0
  {
    Money(Rescale(RunningTotal(timesheets, hourlyRate), 2), hourlyRate.currency)
  }

  /**
   * The amount owed for `timesheets` at `hourlyRate`: the closed timesheets
   * are visited in order, each adding its labour and then each of its
   * expenses; the sum is then rounded to two fractional digits.
   */
  method TotalAll(timesheets: seq<Timesheet>, hourlyRate: Money) returns (total: Money)
    requires ExpensesInCurrency(timesheets, hourlyRate.currency)
    ensures total == TotalAllSpec(timesheets, hourlyRate)
    ensures total.currency == hourlyRate.currency && total.amount.scale == 2
  {
    var currency := hourlyRate.currency;
    var amount := 0.0;
    for i := 0 to |timesheets|
      invariant amount == RunningTotal(timesheets[..i], hourlyRate)
    {
      var timesheet := timesheets[i];
      assert timesheets[..i + 1][..i] == timesheets[..i];
      if timesheet.timeEnd.Some? {
        var seconds := WholeSeconds(timesheet.timeEnd.value - timesheet.timeBegin);
        assert Labour(timesheet, hourlyRate.amount.Value()) == hourlyRate.amount.Value() * (seconds as real / SecondsPerHour);
        amount := amount + hourlyRate.amount.Value() * (seconds as real / SecondsPerHour);
        ghost var afterLabour := amount;
        for j := 0 to |timesheet.expenses|
          invariant amount == afterLabour + ExpenseSum(timesheet.expenses[..j])
        {
          var expense := timesheet.expenses[j];
          // the addition of two amounts of money panics unless their currencies agree
          assert expense.cost.currency == currency;
          assert timesheet.expenses[..j + 1][..j] == timesheet.expenses[..j];
          amount := amount + expense.cost.amount.Value();
        }
        assert timesheet.expenses[..|timesheet.expenses|] == timesheet.expenses;
      }
      assert timesheets[..i + 1][i] == timesheet;
      assert amount == RunningTotal(timesheets[..i], hourlyRate) + Contribution(timesheet, hourlyRate);
    }
    assert timesheets[..|timesheets|] == timesheets;
    total := Money(Rescale(amount, 2), currency);
  }

  // ---------------------------------------------------------------------
  // Properties of the total

  /** The closed timesheets among `timesheets`, in their order. */
  function Closed(timesheets: seq<Timesheet>): (r: seq<Timesheet>)
    ensures |r| <= |timesheets|
    ensures forall t :: t in r <==> t in timesheets && t.timeEnd.Some?
  {
    if timesheets == [] then []
    else if timesheets[0].timeEnd.Some? then [timesheets[0]] + Closed(timesheets[1..])
    else Closed(timesheets[1..])
  }

  /** A single timesheet is kept exactly when it has an end time. */
  lemma ClosedOfOne(t: Timesheet)
    ensures Closed([t]) == if t.timeEnd.Some? then [t] else []
  {
    assert [t][1..] == [];
  }

  /**
   * The filter works one timesheet at a time: it keeps the order of the
   * timesheets and every repetition of a closed one.
   */
  lemma {:induction false} ClosedAppend(a: seq<Timesheet>, b: seq<Timesheet>)
    ensures Closed(a + b) == Closed(a) + Closed(b)
  {
    if a == [] {
      assert a + b == b;
    } else {
      assert (a + b)[0] == a[0] && (a + b)[1..] == a[1..] + b;
      ClosedAppend(a[1..], b);
    }
  }

  /**
   * Reference definition of the unrounded total: the sum, over the closed
   * timesheets only, of labour plus expenses.
   */
  function BilledSum(closed: seq<Timesheet>, rate: real): (r: real)
    requires forall t :: t in closed ==> t.timeEnd.Some?
  {
    if closed == [] then 0.0
    else Labour(closed[0], rate) + ExpenseSum(closed[0].expenses) + BilledSum(closed[1..], rate)
  }

  /** Accumulating from left to right and skipping ongoing timesheets gives the reference sum. */
  lemma {:induction false} RunningTotalIsBilledSum(timesheets: seq<Timesheet>, hourlyRate: Money)
    ensures RunningTotal(timesheets, hourlyRate) == BilledSum(Closed(timesheets), hourlyRate.amount.Value())
  {
    if timesheets != [] {
      var t, rest := timesheets[0], timesheets[1..];
      assert timesheets == [t] + rest;
      RunningTotalAppend([t], rest, hourlyRate);
      assert [t][..0] == [];
      RunningTotalIsBilledSum(rest, hourlyRate);
      if t.timeEnd.Some? {
        var c := Closed(timesheets);
        assert c[0] == t && c[1..] == Closed(rest);
      }
    }
  }

  /** Totals of consecutive runs of timesheets add up: accumulation is additive. */
  lemma {:induction false} RunningTotalAppend(a: seq<Timesheet>, b: seq<Timesheet>, hourlyRate: Money)
    ensures RunningTotal(a + b, hourlyRate) == RunningTotal(a, hourlyRate) + RunningTotal(b, hourlyRate)
    decreases |b|
  {
    if b == [] {
      assert a + b == a;
    } else {
      var b' := b[..|b| - 1];
      assert (a + b)[..|a + b| - 1] == a + b';
      assert (a + b)[|a + b| - 1] == b[|b| - 1];
      RunningTotalAppend(a, b', hourlyRate);
    }
  }

  /** Expense sums of consecutive runs of expenses add up. */
  lemma {:induction false} ExpenseSumAppend(a: seq<Expense>, b: seq<Expense>)
    ensures ExpenseSum(a + b) == ExpenseSum(a) + ExpenseSum(b)
    decreases |b|
  {
    if b == [] {
      assert a + b == a;
    } else {
      var b' := b[..|b| - 1];
      assert (a + b)[..|a + b| - 1] == a + b';
      assert (a + b)[|a + b| - 1] == b[|b| - 1];
      ExpenseSumAppend(a, b');
    }
  }

  /** An expense adds exactly its cost, wherever it stands in the list. */
  lemma ExpenseAddsItsCost(a: seq<Expense>, e: Expense, b: seq<Expense>)
    ensures ExpenseSum(a + [e] + b) == ExpenseSum(a + b) + e.cost.amount.Value()
  {
    ExpenseSumAppend(a + [e], b);
    ExpenseSumAppend(a, b);
    assert (a + [e])[..|a + [e]| - 1] == a;
  }

  /**
   * An ongoing timesheet, wherever it stands, changes nothing: neither its
   * time nor any of its expenses are billed, and its expenses' currencies
   * are not constrained.
   */
  lemma OngoingTimesheetIsIgnored(a: seq<Timesheet>, t: Timesheet, b: seq<Timesheet>, hourlyRate: Money)
    requires t.timeEnd.None?
    ensures RunningTotal(a + [t] + b, hourlyRate) == RunningTotal(a + b, hourlyRate)
    ensures ExpensesInCurrency(a + [t] + b, hourlyRate.currency) == ExpensesInCurrency(a + b, hourlyRate.currency)
  {
    InsertionAddsContribution(a, t, b, hourlyRate);
    var c := hourlyRate.currency;
    var s, s' := a + [t] + b, a + b;
    if ExpensesInCurrency(s', c) {
      forall i, j | 0 <= i < |s| && s[i].timeEnd.Some? && 0 <= j < |s[i].expenses|
        ensures s[i].expenses[j].cost.currency == c
      {
        var i' := if i < |a| then i else i - 1;
        assert s[i] == s'[i'];
      }
    }
    if ExpensesInCurrency(s, c) {
      forall i, j | 0 <= i < |s'| && s'[i].timeEnd.Some? && 0 <= j < |s'[i].expenses|
        ensures s'[i].expenses[j].cost.currency == c
      {
        var i' := if i < |a| then i else i + 1;
        assert s'[i] == s[i'];
      }
    }
  }

  /**
   * A closed timesheet, wherever it stands, adds the hourly rate times its
   * whole seconds over 3600, and the cost of each of its expenses.
   */
  lemma ClosedTimesheetAddsLabourAndExpenses(a: seq<Timesheet>, t: Timesheet, b: seq<Timesheet>, hourlyRate: Money)
    requires t.timeEnd.Some?
    ensures RunningTotal(a + [t] + b, hourlyRate) ==
      RunningTotal(a + b, hourlyRate)
      + hourlyRate.amount.Value() * (WholeSeconds(t.timeEnd.value - t.timeBegin) as real / SecondsPerHour)
      + ExpenseSum(t.expenses)
  {
    InsertionAddsContribution(a, t, b, hourlyRate);
    ClosedContribution(t, hourlyRate);
  }

  /** What a closed timesheet contributes, written out. */
  lemma ClosedContribution(t: Timesheet, hourlyRate: Money)
    requires t.timeEnd.Some?
    ensures Contribution(t, hourlyRate) ==
      hourlyRate.amount.Value() * (WholeSeconds(t.timeEnd.value - t.timeBegin) as real / SecondsPerHour)
      + ExpenseSum(t.expenses)
  {
  }

  /** A timesheet inserted anywhere adds its own contribution. */
  lemma InsertionAddsContribution(a: seq<Timesheet>, t: Timesheet, b: seq<Timesheet>, hourlyRate: Money)
    ensures RunningTotal(a + [t] + b, hourlyRate) == RunningTotal(a + b, hourlyRate) + Contribution(t, hourlyRate)
  {
    RunningTotalAppend(a + [t], b, hourlyRate);
    RunningTotalAppend(a, b, hourlyRate);
    assert (a + [t])[..|a + [t]| - 1] == a;
  }

  /** The total of timesheets that are all ongoing, and so of none at all, is zero cents. */
  lemma {:induction false} AllOngoingTotalsZero(timesheets: seq<Timesheet>, hourlyRate: Money)
    requires forall i :: 0 <= i < |timesheets| ==> timesheets[i].timeEnd.None?
    ensures ExpensesInCurrency(timesheets, hourlyRate.currency)
    ensures RunningTotal(timesheets, hourlyRate) == 0.0
    ensures TotalAllSpec(timesheets, hourlyRate) == Money(Decimal(0, 2), hourlyRate.currency)
  {
    if timesheets != [] {
      AllOngoingTotalsZero(timesheets[..|timesheets| - 1], hourlyRate);
    }
    RoundHalfAwayOfWhole(0);
  }

  /**
   * Nothing is lost to rounding when the unrounded total is already a whole
   * number of cents.
   */
  lemma TotalIsExactForWholeCents(timesheets: seq<Timesheet>, hourlyRate: Money, cents: int)
    requires ExpensesInCurrency(timesheets, hourlyRate.currency)
    requires RunningTotal(timesheets, hourlyRate) == Decimal(cents, 2).Value()
    ensures TotalAllSpec(timesheets, hourlyRate) == Money(Decimal(cents, 2), hourlyRate.currency)
  {
    RescaleKeepsShorterDecimal(Decimal(cents, 2), 2);
  }

  /**
   * A timesheet that ends at least a second before it begins is not
   * rejected: wherever it stands, at a positive rate, it adds less than
   * its expenses, because its time is subtracted from the total.
   */
  lemma NegativeSpanReducesTotal(a: seq<Timesheet>, t: Timesheet, b: seq<Timesheet>, hourlyRate: Money)
    requires t.timeEnd.Some? && t.timeEnd.value - t.timeBegin <= -NanosPerSecond
    requires hourlyRate.amount.Value() > 0.0
    ensures RunningTotal(a + [t] + b, hourlyRate) < RunningTotal(a + b, hourlyRate) + ExpenseSum(t.expenses)
    ensures t.expenses == [] ==> RunningTotal([t], hourlyRate) < 0.0
  {
    ClosedTimesheetAddsLabourAndExpenses(a, t, b, hourlyRate);
    ClosedTimesheetAddsLabourAndExpenses([], t, [], hourlyRate);
    assert [] + [t] + [] == [t];
    var s := WholeSeconds(t.timeEnd.value - t.timeBegin);
    assert s <= -1;
    var r := hourlyRate.amount.Value();
    assert s as real / SecondsPerHour < 0.0;
    assert r * (s as real / SecondsPerHour) < 0.0;
  }

  // ---------------------------------------------------------------------
  // The two documented examples

  /** `hours:minutes:seconds` on the day that starts at `day`. */
  function At(day: Instant, hours: nat, minutes: nat, seconds: nat): Instant
  {
    day + ((hours * 60 + minutes) * 60 + seconds) * NanosPerSecond
  }

  /** A timesheet whose other fields have their default values. */
  function Sheet(expenses: seq<Expense>, timeBegin: Instant, timeEnd: Option<Instant>): Timesheet
  {
    Timesheet(0, Employee(0), expenses, Job(0), timeBegin, timeEnd, "")
  }

  const Usd: Currency := Currency("USD")
  const Eur: Currency := Currency("EUR")

  /** Two half-hour timesheets, the second with a 20.00 USD expense. */
  function DocTimesheets(day: Instant): seq<Timesheet>
  {
    [ Sheet([], At(day, 2, 0, 0), Some(At(day, 2, 30, 0))),
      Sheet([Expense(0, "", Money(Decimal(2000, 2), Usd), "")], At(day, 3, 0, 0), Some(At(day, 3, 30, 0))) ]
  }

  /** At 20.00 USD an hour the two half hours and the expense come to 40.00 USD. */
  lemma DocExampleTotal(day: Instant)
    ensures ExpensesInCurrency(DocTimesheets(day), Usd)
    ensures TotalAllSpec(DocTimesheets(day), Money(Decimal(2000, 2), Usd)) == Money(Decimal(4000, 2), Usd)
  {
    var ts := DocTimesheets(day);
    var rate := Money(Decimal(2000, 2), Usd);
    assert rate.amount.Value() == 20.0;
    assert ElapsedSeconds(ts[0]) == 1800;
    assert ElapsedSeconds(ts[1]) == 1800;
    assert ts[..1][..0] == [];
    assert ts[..1] == [ts[0]];
    assert ts[1].expenses[..0] == [];
    assert ExpenseSum(ts[1].expenses) == 20.0;
    assert Contribution(ts[0], rate) == 10.0;
    assert Contribution(ts[1], rate) == 30.0;
    assert RunningTotal(ts[..1], rate) == 10.0;
    assert RunningTotal(ts, rate) == 40.0;
    TotalIsExactForWholeCents(ts, rate, 4000);
  }

  /**
   * An ongoing timesheet with a 20.00 USD expense next to a closed half hour
   * at 20.00 USD an hour: only the half hour is billed, 10.00 USD.
   */
  lemma OngoingExpenseExample(day: Instant)
    ensures
      var ts := [ Sheet([Expense(0, "", Money(Decimal(2000, 2), Usd), "")], At(day, 1, 0, 0), None),
                  Sheet([], At(day, 2, 0, 0), Some(At(day, 2, 30, 0))) ];
      ExpensesInCurrency(ts, Usd) &&
      TotalAllSpec(ts, Money(Decimal(2000, 2), Usd)) == Money(Decimal(1000, 2), Usd)
  {
    var ts := [ Sheet([Expense(0, "", Money(Decimal(2000, 2), Usd), "")], At(day, 1, 0, 0), None),
                Sheet([], At(day, 2, 0, 0), Some(At(day, 2, 30, 0))) ];
    var rate := Money(Decimal(2000, 2), Usd);
    assert rate.amount.Value() == 20.0;
    assert ElapsedSeconds(ts[1]) == 1800;
    assert ts[..1][..0] == [];
    assert Contribution(ts[1], rate) == 10.0;
    assert RunningTotal(ts[..1], rate) == 0.0;
    assert RunningTotal(ts, rate) == 10.0;
    TotalIsExactForWholeCents(ts, rate, 1000);
  }

  /** At a EUR rate the USD expense on a closed timesheet makes the addition panic. */
  lemma DocExampleEurPanics(day: Instant)
    ensures !ExpensesInCurrency(DocTimesheets(day), Eur)
  {
    var ts := DocTimesheets(day);
    assert ts[1].expenses[0].cost.currency == Usd;
  }
}
