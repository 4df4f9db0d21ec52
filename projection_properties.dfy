/** What the projection promises: the duration of a valid range, the overtime
    rule, the federal brackets, how the taxes add up, that the upfront cost is
    deducted exactly once, that post-season costs touch only the final balance,
    and that unreadable numbers count as zero. */
module ProjectionProperties {
  import opened Wrappers
  import opened AppTypes
  import opened FormState
  import opened Projection

  // ---------------------------------------------------------------- duration

  /** The weeks of a range match its elapsed milliseconds (end minus start:
      the absolute value in the source changes nothing on a valid range) to
      within one day, the last partial day counting in full */
  lemma WeeksMatchElapsedTime(start: int, end: int)
    requires start < end
    ensures var weeks := TotalWeeks(start, end);
            && (weeks * DaysPerWeek - 1.0) * MsPerDay as real < (end - start) as real
            && (end - start) as real <= weeks * DaysPerWeek * MsPerDay as real
  {
  }

  /** Emptying either date field in the form makes the projection invalid
      and all-zero, whatever the date parser would make of the empty text */
  lemma ClearingADateInvalidates(
    s: AppState, key: StateKey, parseDate: DateParser, parseNumber: NumberParser)
    requires key == StartDate || key == EndDate
    ensures var r := Calculate(UpdateState(s, key, Text("")), parseDate, parseNumber);
            !r.isValid && AllZero(r)
  {
  }

  /** On a valid range, the figures in terms of the form's own fields: the
      weeks, each job's pay from its own wage and hours under the overtime
      toggle, the taxes under the state rate and the FICA toggle, and the
      upfront, housing and living costs */
  lemma ValidFormFigures(s: AppState, parseDate: DateParser, parseNumber: NumberParser)
    requires ValidDates(s, parseDate)
    ensures var r := Calculate(s, parseDate, parseNumber);
            var g := r.totalSeasonGross;
            && r.totalWeeks * DaysPerWeek
               == DiffDays(parseDate(s.startDate).value, parseDate(s.endDate).value) as real
            && r.grossWeeklyIncome
               == JobPay(ParseOrZero(parseNumber, s.job1.wage), ParseOrZero(parseNumber, s.job1.hours), s.includeOvertime)
                + JobPay(ParseOrZero(parseNumber, s.job2.wage), ParseOrZero(parseNumber, s.job2.hours), s.includeOvertime)
            && g == r.grossWeeklyIncome * r.totalWeeks
            && r.totalSeasonTax
               == FederalTax(g) + g * (ParseOrZero(parseNumber, s.stateTaxRate) / 100.0)
                + (if s.isFicaExempt then 0.0 else g * FicaRate)
            && r.weeklyProgramCost * r.totalWeeks == ParseOrZero(parseNumber, s.upfrontCost)
            && r.totalWeeklyExpense
               == ParseOrZero(parseNumber, s.housingCost) + ParseOrZero(parseNumber, s.weeklyLivingCost)
                + r.weeklyProgramCost
            && r.totalAfterSplurge
               == r.totalSeasonProfit - ParseOrZero(parseNumber, s.travelCost) - ParseOrZero(parseNumber, s.purchaseCost)
  {
  }

  // ---------------------------------------------------------------- pay

  /** The two branches of `calculateJobIncome` as the source writes them */
  lemma JobPayCases(wage: real, hours: real, includeOvertime: bool)
    ensures !includeOvertime || hours <= 40.0 ==> JobPay(wage, hours, includeOvertime) == wage * hours
    ensures includeOvertime && hours > 40.0 ==>
      JobPay(wage, hours, includeOvertime) == 40.0 * wage + (hours - 40.0) * (1.5 * wage)
  {
  }

  /** At exactly 40 hours the overtime rule pays what straight time pays */
  lemma OvertimeAgreesAtThreshold(wage: real)
    ensures JobPay(wage, 40.0, true) == JobPay(wage, 40.0, false) == 40.0 * wage
  {
  }

  /** For a non-negative wage, turning overtime on never lowers the pay */
  lemma OvertimeNeverBelowStraightPay(wage: real, hours: real)
    requires wage >= 0.0
    ensures JobPay(wage, hours, true) >= JobPay(wage, hours, false) == wage * hours
  {
  }

  /** 15 an hour for 48 hours with overtime: 600 straight plus 8 hours at 22.50 */
  lemma OvertimeExample()
    ensures JobPay(15.0, 48.0, true) == 780.0
  {
  }

  // ---------------------------------------------------------------- federal tax

  /** The tax at the bracket boundary and one unit above it */
  lemma FederalTaxAtThreshold()
    ensures FederalTax(BracketThreshold) == 1160.0
    ensures FederalTax(11601.0) == 1160.12
  {
  }

  /** Federal tax is continuous: it moves by at most 12% of any change in the
      season gross, so there is no jump at the bracket boundary */
  lemma FederalTaxLipschitz(g1: real, g2: real)
    requires g1 <= g2
    ensures FederalTax(g2) - FederalTax(g1) <= UpperBracketRate * (g2 - g1)
  {
  }

  /** More season gross never means less federal tax */
  lemma FederalTaxMonotone(g1: real, g2: real)
    requires g1 <= g2
    ensures FederalTax(g1) <= FederalTax(g2)
  {
  }

  /** On a non-negative gross the average federal rate lies between 10% and 12% */
  lemma FederalTaxBetweenRates(gross: real)
    requires gross >= 0.0
    ensures LowerBracketRate * gross <= FederalTax(gross) <= UpperBracketRate * gross
  {
  }

  // ---------------------------------------------------------------- season tax

  /** The season gross is the two jobs' weekly pay times the weeks; the season
      tax is federal tax plus the flat state share plus FICA unless exempt, all
      on the season gross */
  lemma SeasonTaxComponents(w: real, n: Numbers, includeOvertime: bool, isFicaExempt: bool, travel: real, purchase: real)
    requires w > 0.0
    ensures var r := Project(w, n, includeOvertime, isFicaExempt, travel, purchase);
            var g := r.totalSeasonGross;
            && r.grossWeeklyIncome == JobPay(n.job1.wage, n.job1.hours, includeOvertime)
                                      + JobPay(n.job2.wage, n.job2.hours, includeOvertime)
            && g == r.grossWeeklyIncome * w
            && r.totalSeasonTax == FederalTax(g) + g * (n.stateRate / 100.0)
                                   + (if isFicaExempt then 0.0 else g * FicaRate)
  {
  }

  /** Toggling the FICA exemption changes the season tax by exactly 7.65% of
      the season gross, and changes neither the gross nor the other taxes */
  lemma FicaToggle(w: real, n: Numbers, includeOvertime: bool, travel: real, purchase: real)
    requires w > 0.0
    ensures var exempt := Project(w, n, includeOvertime, true, travel, purchase);
            var liable := Project(w, n, includeOvertime, false, travel, purchase);
            && exempt.totalSeasonGross == liable.totalSeasonGross
            && liable.totalSeasonTax - exempt.totalSeasonTax == liable.totalSeasonGross * FicaRate
  {
  }

  /** In the 10% bracket and FICA-exempt, the weekly tax is the weekly gross
      times (10% plus the state rate), however long the season */
  lemma LowBracketExemptWeeklyTax(w: real, n: Numbers, includeOvertime: bool, travel: real, purchase: real)
    requires w > 0.0
    requires Project(w, n, includeOvertime, true, travel, purchase).totalSeasonGross <= BracketThreshold
    ensures var r := Project(w, n, includeOvertime, true, travel, purchase);
            r.weeklyTax == r.grossWeeklyIncome * (LowerBracketRate + n.stateRate / 100.0)
  {
  }

  // ---------------------------------------------------------------- profit

  /** The amortised upfront cost adds back up to the upfront cost, so the
      season profit deducts it exactly once: it equals the season gross less
      the season tax, the season's housing and living costs, and the upfront
      cost. (Amortising it weekly and deducting it once agree.) */
  lemma UpfrontDeductedOnce(w: real, n: Numbers, includeOvertime: bool, isFicaExempt: bool, travel: real, purchase: real)
    requires w > 0.0
    ensures var r := Project(w, n, includeOvertime, isFicaExempt, travel, purchase);
            && r.weeklyProgramCost * w == n.costUpfront
            && r.totalSeasonProfit
               == r.totalSeasonGross - r.totalSeasonTax - (n.costHousing + n.costLiving) * w - n.costUpfront
  {
  }

  /** The weekly cash-flow chain: the weekly expense is housing, living and the
      amortised upfront cost; net income is gross less the weekly tax; weekly
      profit is net income less the weekly expense; season profit is weekly
      profit times the weeks */
  lemma WeeklyCashFlow(w: real, n: Numbers, includeOvertime: bool, isFicaExempt: bool, travel: real, purchase: real)
    requires w > 0.0
    ensures var r := Project(w, n, includeOvertime, isFicaExempt, travel, purchase);
            && r.totalWeeklyExpense == n.costHousing + n.costLiving + r.weeklyProgramCost
            && r.netWeeklyIncome == r.grossWeeklyIncome - r.weeklyTax
            && r.weeklyNetProfit == r.netWeeklyIncome - r.totalWeeklyExpense
            && r.totalSeasonProfit == r.weeklyNetProfit * w
  {
  }

  /** A month is four weeks of profit; the final balance is the season profit
      less the travel and purchase costs */
  lemma MonthlyAndFinalBalance(w: real, n: Numbers, includeOvertime: bool, isFicaExempt: bool, travel: real, purchase: real)
    requires w > 0.0
    ensures var r := Project(w, n, includeOvertime, isFicaExempt, travel, purchase);
            && r.monthlyNetProfit == 4.0 * r.weeklyNetProfit
            && r.totalAfterSplurge == r.totalSeasonProfit - travel - purchase
  {
  }

  /** The travel and purchase costs move the final balance by their change
      and no other figure */
  lemma SplurgeOnlyInFinalBalance(
    w: real, n: Numbers, includeOvertime: bool, isFicaExempt: bool,
    travel: real, purchase: real, travel': real, purchase': real)
    requires w > 0.0
    ensures var before := Project(w, n, includeOvertime, isFicaExempt, travel, purchase);
            var after := Project(w, n, includeOvertime, isFicaExempt, travel', purchase');
            && after.(totalAfterSplurge := 0.0) == before.(totalAfterSplurge := 0.0)
            && after.totalAfterSplurge - before.totalAfterSplurge == (travel - travel') + (purchase - purchase')
  {
  }

  /** Editing the travel or purchase cost in the form leaves every figure but
      the final balance as it was */
  lemma SplurgeCostsTouchOnlyFinalBalance(
    s: AppState, key: StateKey, text: string, parseDate: DateParser, parseNumber: NumberParser)
    requires key == TravelCost || key == PurchaseCost
    ensures var before := Calculate(s, parseDate, parseNumber);
            var after := Calculate(UpdateState(s, key, Text(text)), parseDate, parseNumber);
            && after.(totalAfterSplurge := 0.0) == before.(totalAfterSplurge := 0.0)
            && (before.isValid ==>
                  after.totalAfterSplurge - before.totalAfterSplurge
                  == ParseOrZero(parseNumber, Lookup(s, key).text) - ParseOrZero(parseNumber, text))
  {
    var s' := UpdateState(s, key, Text(text));
    assert ValidDates(s', parseDate) == ValidDates(s, parseDate);
    assert ReadNumbers(s', parseNumber) == ReadNumbers(s, parseNumber);
    if ValidDates(s, parseDate) {
      var w := TotalWeeks(parseDate(s.startDate).value, parseDate(s.endDate).value);
      SplurgeOnlyInFinalBalance(
        w, ReadNumbers(s, parseNumber), s.includeOvertime, s.isFicaExempt,
        ParseOrZero(parseNumber, s.travelCost), ParseOrZero(parseNumber, s.purchaseCost),
        ParseOrZero(parseNumber, s'.travelCost), ParseOrZero(parseNumber, s'.purchaseCost));
    }
  }

  // ---------------------------------------------------------------- partial input

  /** The top-level fields read with `parseFloat(...) || 0` */
  predicate IsNumberKey(key: StateKey) {
    key in {UpfrontCost, HousingCost, WeeklyLivingCost, TravelCost, PurchaseCost, StateTaxRate}
  }

  /** An unreadable number (empty or not a number) is treated exactly as a typed 0 */
  lemma UnreadableNumberIsZero(
    s: AppState, key: StateKey, zero: string, parseDate: DateParser, parseNumber: NumberParser)
    requires IsNumberKey(key)
    requires parseNumber(Lookup(s, key).text).None?
    requires parseNumber(zero) == Some(0.0)
    ensures Calculate(UpdateState(s, key, Text(zero)), parseDate, parseNumber) == Calculate(s, parseDate, parseNumber)
  {
  }

  /** The same for the wage and hours of either job */
  lemma UnreadableJobNumberIsZero(
    s: AppState, job: JobKey, field: JobField, zero: string, parseDate: DateParser, parseNumber: NumberParser)
    requires parseNumber(JobLookup(s, job, field)).None?
    requires parseNumber(zero) == Some(0.0)
    ensures Calculate(UpdateJob(s, job, field, zero), parseDate, parseNumber) == Calculate(s, parseDate, parseNumber)
  {
  }

  // ---------------------------------------------------------------- example

  /** The default form: 17 June to 20 September 2025 (95 days), 4000 upfront,
      100 + 100 a week, one job at 15 an hour for 40 hours, 3.5% state tax,
      FICA-exempt, 1000 travel. */
  lemma DefaultScenario(parseDate: DateParser, parseNumber: NumberParser)
    requires parseDate("2025-06-17") == Some(1750118400000)
    requires parseDate("2025-09-20") == Some(1758326400000)
    requires parseNumber("4000") == Some(4000.0) && parseNumber("100") == Some(100.0)
    requires parseNumber("1000") == Some(1000.0) && parseNumber("") == None
    requires parseNumber("3.5") == Some(3.5) && parseNumber("15") == Some(15.0)
    requires parseNumber("40") == Some(40.0)
    ensures var r := Calculate(DefaultState(), parseDate, parseNumber);
            && r.isValid
            && r.totalWeeks == 95.0 / 7.0
            && r.grossWeeklyIncome == 600.0
            && r.totalSeasonGross == 57000.0 / 7.0
            && FederalTax(r.totalSeasonGross) == 5700.0 / 7.0
            && r.totalSeasonTax == 7695.0 / 7.0
            && r.weeklyTax == 81.0
            && r.netWeeklyIncome == 519.0
            && r.totalWeeklyExpense == 200.0 + 28000.0 / 95.0
            && r.weeklyNetProfit == 461.0 / 19.0
            && r.monthlyNetProfit == 4.0 * r.weeklyNetProfit
            && r.totalSeasonProfit == 2305.0 / 7.0
            && r.totalAfterSplurge == -4695.0 / 7.0
  {
    var s := DefaultState();
    assert DiffDays(1750118400000, 1758326400000) == 95;
    var w := 95.0 / 7.0;
    var n := ReadNumbers(s, parseNumber);
    assert n == Numbers(4000.0, 100.0, 100.0, 3.5, JobNumbers(15.0, 40.0), JobNumbers(0.0, 0.0));
    UpfrontDeductedOnce(w, n, true, true, 1000.0, 0.0);
    LowBracketExemptWeeklyTax(w, n, true, 1000.0, 0.0);
  }

  /** `DEFAULT_STATE` */
  function DefaultState(): AppState {
    AppState("2025-06-17", "2025-09-20", "4000", "100", "100", "1000", "", "3.5", true, true,
             JobData("15", "40"), JobData("", ""))
  }
}
