/** The season projection engine of App.tsx (the `useMemo` callback): a pure
    function from the form record to the flat record of projected figures.
    JavaScript numbers are modelled as exact reals; the two foreign parsers,
    `new Date(text).getTime()` and `parseFloat(text)`, are parameters:
    `None` is an invalid date, resp. `NaN`. */
module Projection {
  import opened Wrappers
  import opened AppTypes

  /** `1000 * 60 * 60 * 24` */
  const MsPerDay: int := 1000 * 60 * 60 * 24
  const DaysPerWeek: real := 7.0
  /** Weekly hours paid at the straight rate when overtime is on */
  const OvertimeThreshold: real := 40.0
  const OvertimeFactor: real := 1.5
  /** Upper end of the 10% federal bracket */
  const BracketThreshold: real := 11600.0
  const LowerBracketRate: real := 0.10
  const UpperBracketRate: real := 0.12
  /** Social Security plus Medicare */
  const FicaRate: real := 0.0765
  /** A "month" is four weeks */
  const WeeksPerMonth: real := 4.0

  type DateParser = string -> Option<int>
  type NumberParser = string -> Option<real>

  /** `parseFloat(text) || 0`: `NaN` (and 0 itself) becomes 0 */
  function ParseOrZero(parseNumber: NumberParser, text: string): real {
    parseNumber(text).GetOr(0.0)
  }

  function Abs(x: int): (a: int)
    ensures a >= 0 && (a == x || a == -x)
  {
    if x < 0 then -x else x
  }

  /** `Math.ceil`: the least integer not below `x` */
  function Ceil(x: real): (n: int)
    ensures x <= n as real < x + 1.0
  {
    -((-x).Floor)
  }

  function Min(a: real, b: real): real { if a <= b then a else b }

  function Max(a: real, b: real): real { if a <= b then b else a }

  /** Step 1: both texts non-empty, both parse, and the end strictly after the start */
  predicate ValidDates(s: AppState, parseDate: DateParser) {
    s.startDate != "" && s.endDate != ""
    && parseDate(s.startDate).Some? && parseDate(s.endDate).Some?
    && parseDate(s.endDate).value > parseDate(s.startDate).value
  }

  /** Step 2: the number of whole days the range spans, a partial day counting as one */
  function DiffDays(start: int, end: int): (days: int)
    ensures (days - 1) * MsPerDay < Abs(end - start) <= days * MsPerDay
    ensures start != end ==> days >= 1
  {
    Ceil(Abs(end - start) as real / MsPerDay as real)
  }

  /** Step 3: the upfront cost spread over the weeks, 0 when there are none */
  function WeeklyProgramCost(upfront: real, weeks: real): (c: real)
    ensures weeks > 0.0 ==> c * weeks == upfront
    ensures weeks <= 0.0 ==> c == 0.0
  {
    if weeks > 0.0 then upfront / weeks else 0.0
  }

  /** Step 4: one job's weekly pay; hours past 40 earn time and a half when
      overtime is on. Stated as straight pay plus a half-rate premium on the
      overtime hours. */
  function JobPay(wage: real, hours: real, includeOvertime: bool): (pay: real)
    ensures pay == wage * hours
      + (if includeOvertime && hours > OvertimeThreshold
         then (hours - OvertimeThreshold) * wage * (OvertimeFactor - 1.0) else 0.0)
  {
    if includeOvertime && hours > OvertimeThreshold then
      var regularPay := OvertimeThreshold * wage;
      var overtimePay := (hours - OvertimeThreshold) * (wage * OvertimeFactor);
      regularPay + overtimePay
    else
      wage * hours
  }

  /** Step 5: federal tax on the season gross, 10% up to 11600 and 12% above;
      stated as the sum over the two brackets */
  function FederalTax(gross: real): (tax: real)
    ensures tax == Min(gross, BracketThreshold) * LowerBracketRate
                 + Max(0.0, gross - BracketThreshold) * UpperBracketRate
  {
    if gross <= BracketThreshold then gross * LowerBracketRate
    else BracketThreshold * LowerBracketRate + (gross - BracketThreshold) * UpperBracketRate
  }

  /** The result for an unusable date range */
  function InvalidResults(): (r: CalculatedResults)
    ensures !r.isValid
  {
    CalculatedResults(false, 0.0, 0.0, 0.0, 0.0, 0.0, 0.0, 0.0, 0.0, 0.0, 0.0, 0.0, 0.0)
  }

  /** Every numeric field is zero */
  predicate AllZero(r: CalculatedResults) {
    r.totalWeeks == 0.0 && r.weeklyProgramCost == 0.0 && r.grossWeeklyIncome == 0.0
    && r.netWeeklyIncome == 0.0 && r.weeklyTax == 0.0 && r.totalSeasonGross == 0.0
    && r.totalSeasonTax == 0.0 && r.totalWeeklyExpense == 0.0 && r.weeklyNetProfit == 0.0
    && r.monthlyNetProfit == 0.0 && r.totalSeasonProfit == 0.0 && r.totalAfterSplurge == 0.0
  }

  /** A job's wage and hours as read from the form */
  datatype JobNumbers = JobNumbers(wage: real, hours: real)

  /** The numeric fields of the form that steps 3 to 7 read, each as read
      with `parseFloat(...) || 0`; the post-season costs are read in step 8 */
  datatype Numbers = Numbers(
    costUpfront: real, costHousing: real, costLiving: real, stateRate: real,
    job1: JobNumbers, job2: JobNumbers)

  function ReadJob(job: JobData, parseNumber: NumberParser): JobNumbers {
    JobNumbers(ParseOrZero(parseNumber, job.wage), ParseOrZero(parseNumber, job.hours))
  }

  function ReadNumbers(s: AppState, parseNumber: NumberParser): Numbers {
    Numbers(
      ParseOrZero(parseNumber, s.upfrontCost), ParseOrZero(parseNumber, s.housingCost),
      ParseOrZero(parseNumber, s.weeklyLivingCost), ParseOrZero(parseNumber, s.stateTaxRate),
      ReadJob(s.job1, parseNumber), ReadJob(s.job2, parseNumber))
  }

  /** Step 2 on a valid range: the weeks, fractional, from the rounded-up days */
  function TotalWeeks(start: int, end: int): (weeks: real)
    requires start < end
    ensures weeks * DaysPerWeek == DiffDays(start, end) as real
    ensures weeks >= 1.0 / DaysPerWeek
  {
    DiffDays(start, end) as real / DaysPerWeek
  }

  /** Steps 3 to 8 on a valid range of `totalWeeks` weeks, with the travel and
      purchase costs as read in step 8. The division of the
      season tax by the weeks is unguarded, as in the source; its
      well-definedness rests on `totalWeeks > 0`, which `TotalWeeks` provides. */
  function Project(totalWeeks: real, n: Numbers, includeOvertime: bool, isFicaExempt: bool,
                   costTravel: real, costPurchase: real): (r: CalculatedResults)
    requires totalWeeks > 0.0
    ensures r.isValid && r.totalWeeks == totalWeeks
    ensures r.weeklyTax * totalWeeks == r.totalSeasonTax
  {
    // 3. Expenses
    var weeklyProgramCost := WeeklyProgramCost(n.costUpfront, totalWeeks);
    var totalWeeklyExpense := n.costHousing + n.costLiving + weeklyProgramCost;
    // 4. Gross income
    var gross1 := JobPay(n.job1.wage, n.job1.hours, includeOvertime);
    var gross2 := JobPay(n.job2.wage, n.job2.hours, includeOvertime);
    var grossWeeklyIncome := gross1 + gross2;
    var totalSeasonGross := grossWeeklyIncome * totalWeeks;
    // 5. Tax
    var federalTaxTotal := FederalTax(totalSeasonGross);
    var stateTaxTotal := totalSeasonGross * (n.stateRate / 100.0);
    var ficaTaxTotal := if isFicaExempt then 0.0 else totalSeasonGross * FicaRate;
    var totalSeasonTax := federalTaxTotal + stateTaxTotal + ficaTaxTotal;
    var weeklyTax := totalSeasonTax / totalWeeks;
    // 6. Net income
    var netWeeklyIncome := grossWeeklyIncome - weeklyTax;
    // 7. Profit
    var weeklyNetProfit := netWeeklyIncome - totalWeeklyExpense;
    var monthlyNetProfit := weeklyNetProfit * WeeksPerMonth;
    var totalSeasonProfit := weeklyNetProfit * totalWeeks;
    // 8. Post-season splurges
    var totalAfterSplurge := totalSeasonProfit - costTravel - costPurchase;
    CalculatedResults(
      true, totalWeeks, weeklyProgramCost, grossWeeklyIncome, netWeeklyIncome, weeklyTax,
      totalSeasonGross, totalSeasonTax, totalWeeklyExpense, weeklyNetProfit,
      monthlyNetProfit, totalSeasonProfit, totalAfterSplurge)
  }

  /** The whole projection: validate the range, then project. Total on every
      form record: no field can make it fail. */
  function Calculate(s: AppState, parseDate: DateParser, parseNumber: NumberParser): (r: CalculatedResults)
    ensures r.isValid <==> ValidDates(s, parseDate)
    ensures !r.isValid ==> AllZero(r)
    ensures r.isValid ==> r.totalWeeks >= 1.0 / DaysPerWeek
    ensures r.isValid ==>
      r.totalWeeks * DaysPerWeek == DiffDays(parseDate(s.startDate).value, parseDate(s.endDate).value) as real
  {
    if !ValidDates(s, parseDate) then InvalidResults()
    else
      var start := parseDate(s.startDate).value;
      var end := parseDate(s.endDate).value;
      Project(TotalWeeks(start, end), ReadNumbers(s, parseNumber), s.includeOvertime, s.isFicaExempt,
              ParseOrZero(parseNumber, s.travelCost), ParseOrZero(parseNumber, s.purchaseCost))
  }
}
