/** The earnings calculator on the dashboard: an hourly wage for calling
    time, a bonus per placement, and passive income per placed friend that
    accumulates over a twelve-month projection. All amounts are whole
    euros. */
module Earnings {
  import opened Text

  const HourlyRate: int := 30
  const PlacementBonus: int := 300
  const PassiveIncomePerUser: int := 25

  /** The sliders start at 20 hours a week and 10 placements a month. */
  const DefaultHours: int := 20
  const DefaultPlacements: int := 10

  /** The sliders' ranges: 0..40 hours a week and 0..50 placements a month. */
  predicate InputsInRange(hours: int, placements: int) {
    0 <= hours <= 40 && 0 <= placements <= 50
  }

  /** A month is counted as four weeks. */
  function MonthlyBaseSalary(hours: int): (r: int)
    ensures r == 120 * hours
    ensures 0 <= hours <= 40 ==> 0 <= r <= 4800
  {
    hours * 4 * HourlyRate
  }

  function MonthlyBonus(placements: int): (r: int)
    ensures r == 300 * placements
    ensures 0 <= placements <= 50 ==> 0 <= r <= 15000
  {
    placements * PlacementBonus
  }

  /** One point of the chart: `Uurloon`, `Bonussen`, `Passief`, `Totaal`
      and `Accumulated`, named `Mnd <month>`. */
  datatype MonthPoint = MonthPoint(
    name: string,
    hourly: int,
    bonus: int,
    passive: int,
    total: int,
    accumulated: int)

  /** Month `month` of the projection stated directly: by then `month`
      times the monthly placements have been made, each paying the
      passive amount. */
  function ProjectedMonth(month: nat, hours: int, placements: int): MonthPoint {
    var accumulated := month * placements;
    var passive := accumulated * PassiveIncomePerUser;
    MonthPoint("Mnd " + NatToString(month), MonthlyBaseSalary(hours), MonthlyBonus(placements),
               passive, MonthlyBaseSalary(hours) + MonthlyBonus(placements) + passive, accumulated)
  }

  /** The first `n` months of the projection. */
  function Projection(n: nat, hours: int, placements: int): (r: seq<MonthPoint>)
    ensures |r| == n
    ensures forall i :: 0 <= i < n ==> r[i] == ProjectedMonth(i + 1, hours, placements)
  {
    if n == 0 then [] else Projection(n - 1, hours, placements) + [ProjectedMonth(n, hours, placements)]
  }

  /** The `chartData` loop: it adds the monthly placements to a running
      count and pushes one point per month; the result is the twelve-month
      projection. */
  method ChartData(hours: int, placements: int) returns (data: seq<MonthPoint>)
    ensures |data| == 12
    ensures data == Projection(12, hours, placements)
    ensures forall i :: 0 <= i < 12 ==>
      && data[i].accumulated == (i + 1) * placements
      && data[i].passive == PassiveIncomePerUser * data[i].accumulated
      && data[i].total == MonthlyBaseSalary(hours) + MonthlyBonus(placements) + data[i].passive
  {
    data := [];
    var accumulated := 0;
    var month := 1;
    while month <= 12
      invariant 1 <= month <= 13
      invariant accumulated == (month - 1) * placements
      invariant data == Projection(month - 1, hours, placements)
    {
      accumulated := accumulated + placements;
      var passive := accumulated * PassiveIncomePerUser;
      var total := MonthlyBaseSalary(hours) + MonthlyBonus(placements) + passive;
      data := data + [MonthPoint("Mnd " + NatToString(month), MonthlyBaseSalary(hours), MonthlyBonus(placements),
                                 passive, total, accumulated)];
      month := month + 1;
    }
  }

  /** `chartData.reduce((acc, curr) => acc + curr.Totaal, 0)`. */
  function SumTotals(data: seq<MonthPoint>): int {
    if data == [] then 0 else SumTotals(data[..|data| - 1]) + data[|data| - 1].total
  }

  /** Totals that grow by the same amount each month sum to the closed
      form: `n` months of the base amount plus `c` for each of
      1 + 2 + ... + n. */
  lemma {:induction false} SumTotalsLinear(data: seq<MonthPoint>, b: int, c: int)
    requires forall i :: 0 <= i < |data| ==> data[i].total == b + c * (i + 1)
    ensures 2 * SumTotals(data) == 2 * |data| * b + c * |data| * (|data| + 1)
  {
    var n := |data|;
    if n > 0 {
      var front := data[..n - 1];
      assert forall i :: 0 <= i < |front| ==> front[i] == data[i];
      SumTotalsLinear(front, b, c);
      ClosedFormStep(n, b, c);
    }
  }

  /** The arithmetic of one induction step of the closed form. */
  lemma ClosedFormStep(n: int, b: int, c: int)
    ensures 2 * (n - 1) * b + c * (n - 1) * n + 2 * (b + c * n) == 2 * n * b + c * n * (n + 1)
  {
    assert c * (n - 1) * n == c * n * n - c * n;
    assert c * n * (n + 1) == c * n * n + c * n;
  }

  /** The year total equals twelve months of wage and bonus plus
      1950 euros per monthly placement. */
  lemma YearTotal(hours: int, placements: int)
    ensures SumTotals(Projection(12, hours, placements))
         == 12 * (MonthlyBaseSalary(hours) + MonthlyBonus(placements)) + 1950 * placements
  {
    var d := Projection(12, hours, placements);
    var b := MonthlyBaseSalary(hours) + MonthlyBonus(placements);
    forall i | 0 <= i < 12 ensures d[i].total == b + (PassiveIncomePerUser * placements) * (i + 1) {
      assert d[i] == ProjectedMonth(i + 1, hours, placements);
    }
    SumTotalsLinear(d, b, PassiveIncomePerUser * placements);
  }

  /** With a non-negative placement rate, no month earns less than the one before. */
  lemma TotalsNonDecreasing(hours: int, placements: int, i: int, j: int)
    requires 0 <= placements
    requires 0 <= i <= j < 12
    ensures Projection(12, hours, placements)[i].total <= Projection(12, hours, placements)[j].total
  {
    var d := Projection(12, hours, placements);
    assert d[i] == ProjectedMonth(i + 1, hours, placements);
    assert d[j] == ProjectedMonth(j + 1, hours, placements);
    ScaleMonotone(i + 1, j + 1, placements);
  }

  /** Multiplying by a non-negative factor keeps the order. */
  lemma ScaleMonotone(a: int, b: int, c: int)
    requires a <= b && 0 <= c
    ensures a * c <= b * c
  {
    assert b * c == a * c + (b - a) * c;
  }

  /** The three year figures under the chart: the income in month 12, the
      year total and the number of friends placed in a year. */
  datatype YearSummary = YearSummary(yearEndMonthlyIncome: int, totalYearEarnings: int, totalVrienden: int)

  /** The summary read off the chart: month 12's `Totaal` is wage, bonus
      and the passive income of all friends placed in the year, the year
      total is the closed form above, and the friends placed in the year are
      month 12's `Accumulated`. */
  function Summary(data: seq<MonthPoint>, placements: int): (s: YearSummary)
    requires |data| == 12
  {
    YearSummary(data[11].total, SumTotals(data), placements * 12)
  }

  lemma SummaryOfProjection(hours: int, placements: int)
    ensures var d := Projection(12, hours, placements);
      var s := Summary(d, placements);
      && s.yearEndMonthlyIncome == MonthlyBaseSalary(hours) + MonthlyBonus(placements) + 300 * placements
      && s.totalYearEarnings == 12 * (MonthlyBaseSalary(hours) + MonthlyBonus(placements)) + 1950 * placements
      && s.totalVrienden == d[11].accumulated
  {
    YearTotal(hours, placements);
  }

  /** Within the sliders' ranges every amount of the projection is
      non-negative, no monthly total exceeds 34800 euros and the year total
      does not exceed 335100 euros. */
  lemma ProjectionBounds(hours: int, placements: int)
    requires InputsInRange(hours, placements)
    ensures var d := Projection(12, hours, placements);
      && (forall i :: 0 <= i < 12 ==>
            && 0 <= d[i].hourly <= 4800 && 0 <= d[i].bonus <= 15000
            && 0 <= d[i].passive <= 15000 && 0 <= d[i].total <= 34800
            && 0 <= d[i].accumulated <= 600)
      && 0 <= SumTotals(d) <= 335100
  {
    var d := Projection(12, hours, placements);
    forall i | 0 <= i < 12
      ensures 0 <= d[i].passive <= 15000 && 0 <= d[i].accumulated <= 600
    {
      assert d[i] == ProjectedMonth(i + 1, hours, placements);
      assert 0 <= (i + 1) * placements <= 12 * 50;
    }
    YearTotal(hours, placements);
  }

  /** The cash-flow card's total: wage plus bonus, the passive income left out. */
  function CashflowTotal(hours: int, placements: int): (r: int)
    ensures r == ProjectedMonth(1, hours, placements).total - ProjectedMonth(1, hours, placements).passive
    ensures 0 <= placements ==> r <= ProjectedMonth(1, hours, placements).total
  {
    MonthlyBaseSalary(hours) + MonthlyBonus(placements)
  }

  /** The calculator's own state: the panel's expanded flag and the two
      sliders. */
  class Calculator {
    var isExpanded: bool
    var hoursPerWeek: int
    var placementsPerMonth: int

    ghost predicate Valid()
      reads this
    {
      InputsInRange(hoursPerWeek, placementsPerMonth)
    }

    constructor ()
      ensures Valid()
      ensures !isExpanded && hoursPerWeek == DefaultHours && placementsPerMonth == DefaultPlacements
    {
      isExpanded := false;
      hoursPerWeek := DefaultHours;
      placementsPerMonth := DefaultPlacements;
    }

    /** Clicking the header opens or closes the panel. */
    method ToggleExpanded()
      modifies this`isExpanded
      ensures isExpanded == !old(isExpanded)
    {
      isExpanded := !isExpanded;
    }

    /** The hours slider delivers a whole number in its range. */
    method SetHours(value: int)
      requires 0 <= value <= 40
      requires Valid()
      modifies this`hoursPerWeek
      ensures Valid() && hoursPerWeek == value
    {
      hoursPerWeek := value;
    }

    /** The placements slider delivers a whole number in its range. */
    method SetPlacements(value: int)
      requires 0 <= value <= 50
      requires Valid()
      modifies this`placementsPerMonth
      ensures Valid() && placementsPerMonth == value
    {
      placementsPerMonth := value;
    }

    /** The chart for the current sliders. */
    method Chart() returns (data: seq<MonthPoint>)
      requires Valid()
      ensures data == Projection(12, hoursPerWeek, placementsPerMonth)
      ensures forall i :: 0 <= i < 12 ==> 0 <= data[i].total <= 34800
    {
      data := ChartData(hoursPerWeek, placementsPerMonth);
      ProjectionBounds(hoursPerWeek, placementsPerMonth);
    }
  }
}
