/** The record shapes of the season planner: the form record the user edits
    (`AppState`) and the flat record of projected figures (`CalculatedResults`).
    Every text field is kept as the raw text the user typed; the two toggles
    are flags. */
module AppTypes {

  /** One job: hourly wage and weekly hours, both as typed */
  datatype JobData = JobData(wage: string, hours: string)

  /** The form record */
  datatype AppState = AppState(
    startDate: string,
    endDate: string,
    upfrontCost: string,
    housingCost: string,
    weeklyLivingCost: string,
    travelCost: string,
    purchaseCost: string,
    stateTaxRate: string,
    isFicaExempt: bool,
    includeOvertime: bool,
    job1: JobData,
    job2: JobData)

  /** The projected figures; `isValid` is false when the date range is unusable */
  datatype CalculatedResults = CalculatedResults(
    isValid: bool,
    totalWeeks: real,
    weeklyProgramCost: real,
    grossWeeklyIncome: real,
    netWeeklyIncome: real,
    weeklyTax: real,
    totalSeasonGross: real,
    totalSeasonTax: real,
    totalWeeklyExpense: real,
    weeklyNetProfit: real,
    monthlyNetProfit: real,
    totalSeasonProfit: real,
    totalAfterSplurge: real)
}
