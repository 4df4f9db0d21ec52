# Season projection engine of a work-abroad budget planner

The planner is a single-page form for seasonal work-abroad participants. The
user enters program dates, upfront and weekly costs, two jobs (wage and weekly
hours), a state tax rate and two toggles: FICA exemption and overtime. The
app recomputes a flat record of projected figures on every edit: the weeks,
weekly gross and net pay, weekly and season tax, weekly, four-week monthly and
season profit, and the balance left after post-season travel and purchases.

This project models that computation, `App.tsx`'s results callback, as a pure
Dafny function. It also models the two form updaters that produce each new
form record. Numbers are exact reals. The two foreign parsers become
function parameters:

- `new Date(text).getTime()` is a `string -> Option<int>` that yields milliseconds, or `None` for an invalid date.
- `parseFloat(text)` is a `string -> Option<real>`, where `None` stands for `NaN`.

`parseFloat(x) || 0` becomes `ParseOrZero`.

Modules:

- `AppTypes` (`app_types.dfy`): the form record `AppState`, with every text field kept as typed and the two toggles as flags, and the result record `CalculatedResults` (types.ts).
- `FormState` (`form_state.dfy`): `updateState` and `updateJob`, plus field accessors that state which field each one changes.
- `Projection` (`projection.dfy`): the engine. `Calculate` validates the date range. It reads the numeric fields and passes the weeks and the numbers to `Project`, which holds steps 3 to 8 of the source in the source's order. The per-job pay, federal brackets, ceiling and amortisation are functions of their own, each with its own contract.
- `ProjectionProperties` (`projection_properties.dfy`): the promises of the engine as lemmas.

The code amortises the upfront cost into the weekly expense and multiplies
the weekly profit back by the weeks (`WeeklyCashFlow`). In exact arithmetic
this gives the same season profit as deducting the upfront cost once at season
end (`UpfrontDeductedOnce`). `DefaultScenario` states the default form's
figures: federal tax 5700/7, season tax 7695/7, weekly tax 81, weekly profit
461/19, season profit 2305/7 and final balance -4695/7.

## Model

| member | source | states |
|---|---|---|
| FormState.UpdateState | App.tsx:41-43 | the named top-level field takes the new value; every other top-level field and both jobs are carried over unchanged |
| FormState.UpdateJob | App.tsx:45-50 | the named field of the named job takes the new value; the other job field, the other job and every top-level field are unchanged |
| FormState.StateDeterminedByFields | types.ts:6-19 | a form record is fully determined by its top-level fields and its four job fields, so the updaters' frame clauses leave nothing unstated |
| FormState.UpdateStateWithCurrentValue | App.tsx:41-43 | writing back the value a field already holds gives the same record |
| FormState.UpdateStateLastWriteWins | App.tsx:41-43 | two updates of the same field equal the second update alone |
| FormState.UpdateJobLastWriteWins | App.tsx:45-50 | two updates of the same job field equal the second update alone |
| Projection.Ceil | App.tsx:85 | `Math.ceil` yields the least integer not below its argument |
| Projection.DiffDays | App.tsx:84-85 | the day count is the number of whole days covering the absolute elapsed milliseconds, and at least 1 when start and end differ |
| Projection.TotalWeeks | App.tsx:84-86 | on a valid range the weeks times 7 are exactly the rounded-up day count, so they are at least 1/7 and never zero |
| Projection.WeeklyProgramCost | App.tsx:94 | with positive weeks the amortised cost times the weeks gives back the upfront cost; otherwise it is 0 |
| Projection.JobPay | App.tsx:102-107 | pay is wage times hours, plus a half-rate premium on the hours over 40 when overtime is on |
| Projection.FederalTax | App.tsx:119-124 | the two-branch tax equals 10% of the gross up to 11600 plus 12% of the part above 11600 |
| Projection.Project | App.tsx:88-164 | a valid result that carries the given weeks, where weekly tax times weeks is the season tax; the unguarded division by the weeks is well-defined because the weeks are positive |
| Projection.Calculate | App.tsx:60-86 | the result is valid exactly when both date texts are non-empty, both parse and the end is after the start; an invalid result has every numeric field 0; on a valid one the weeks times 7 are the rounded-up day count of the parsed range (at least 1/7 week) |
| ProjectionProperties.WeeksMatchElapsedTime | App.tsx:84-86 | the weeks times 7 days cover end minus start to within one day, with no absolute value needed |
| ProjectionProperties.ValidFormFigures | App.tsx:84-148 | on a valid range, in terms of the form's own fields: the weeks times 7 are the rounded-up day count; weekly gross is each job's pay from its own wage and hours under the overtime toggle; season tax is federal plus the parsed state rate plus FICA unless the exemption toggle is on; the amortised cost times the weeks is the parsed upfront cost; weekly expense is parsed housing plus living plus that amortised cost; the final balance deducts the parsed travel and purchase costs |
| ProjectionProperties.ClearingADateInvalidates | App.tsx:61-81 | emptying either date field yields an invalid, all-zero result |
| ProjectionProperties.JobPayCases | App.tsx:98-108 | with overtime off or at most 40 hours, pay is wage times hours; otherwise it is 40 times wage plus the extra hours at 1.5 times wage |
| ProjectionProperties.OvertimeAgreesAtThreshold | App.tsx:102-107 | at exactly 40 hours both branches pay 40 times the wage |
| ProjectionProperties.OvertimeNeverBelowStraightPay | App.tsx:102-107 | for a non-negative wage, overtime pay is never below straight pay |
| ProjectionProperties.OvertimeExample | App.tsx:102-105 | 15 an hour for 48 hours with overtime pays 780 |
| ProjectionProperties.FederalTaxAtThreshold | App.tsx:119-124 | the tax at 11600 is 1160, and 11601 is taxed 1160.12 |
| ProjectionProperties.FederalTaxLipschitz | App.tsx:119-124 | federal tax moves by at most 12% of any increase of the gross, so it has no jump at the bracket boundary |
| ProjectionProperties.FederalTaxMonotone | App.tsx:119-124 | federal tax is non-decreasing in the season gross |
| ProjectionProperties.FederalTaxBetweenRates | App.tsx:119-124 | on a non-negative gross, federal tax lies between 10% and 12% of it |
| ProjectionProperties.SeasonTaxComponents | App.tsx:110-134 | weekly gross is the sum of the two jobs' pay, season gross is that times the weeks, and season tax is federal plus gross times rate/100 plus 7.65% of gross unless exempt |
| ProjectionProperties.FicaToggle | App.tsx:132-134 | toggling the exemption leaves the gross as it is and changes the season tax by exactly 7.65% of the gross |
| ProjectionProperties.LowBracketExemptWeeklyTax | App.tsx:119-135 | up to 11600 of season gross and FICA-exempt, weekly tax is weekly gross times (10% plus the state rate), whatever the duration |
| ProjectionProperties.UpfrontDeductedOnce | App.tsx:94-143 | amortised cost times weeks is the upfront cost, so season profit is season gross minus season tax, minus weekly housing and living times weeks, minus the upfront cost once |
| ProjectionProperties.WeeklyCashFlow | App.tsx:95-143 | weekly expense is housing plus living plus the amortised upfront cost; weekly net is gross less weekly tax; weekly profit is net less expense; season profit is weekly profit times the weeks |
| ProjectionProperties.MonthlyAndFinalBalance | App.tsx:142-148 | monthly profit is 4 times weekly profit; the final balance is season profit minus travel and purchase costs |
| ProjectionProperties.SplurgeOnlyInFinalBalance | App.tsx:145-148 | changing the travel or purchase cost moves the final balance by the difference and leaves every other figure unchanged |
| ProjectionProperties.SplurgeCostsTouchOnlyFinalBalance | App.tsx:146-148 | editing the travel or purchase field in the form changes no figure but the final balance, which moves by the difference of the parsed costs |
| ProjectionProperties.UnreadableNumberIsZero | App.tsx:89-147 | an empty or unparsable upfront, housing, living, travel, purchase or state-rate field gives exactly the projection of a typed 0 |
| ProjectionProperties.UnreadableJobNumberIsZero | App.tsx:99-100 | an empty or unparsable wage or hours field of either job gives exactly the projection of a typed 0 |
| ProjectionProperties.DefaultScenario | App.tsx:9-28 | the default form: 95/7 weeks, weekly gross 600, season gross 57000/7, federal tax 5700/7, season tax 7695/7, weekly tax 81, weekly net 519, weekly expense 200 + 28000/95, weekly profit 461/19, monthly profit 4 times that, season profit 2305/7, final balance -4695/7 |

## Left out

- The grammars of `new Date(text)` and `parseFloat(text)` are foreign parsers. They are parameters of the model, so every property holds for any parser.
- IEEE-754 doubles are not modelled: no rounding, no `NaN` arithmetic and no `Infinity`. In particular `parseFloat` returning `Infinity` is not modelled, because numbers are exact reals.
- `handleReset` (App.tsx:34-38) is left out because it depends on the browser's `window.confirm` dialog.
- React's `useState` and `useMemo` are framework plumbing. The engine is modelled as a function of the form record.
- All JSX rendering in App.tsx and the components in `components/` are presentation only. This includes `formatCurrency` in components/StickyFooter.tsx, which delegates to the locale formatter.
- The state-rate table in constants.ts is static data that the engine never reads: the rate is typed into the form.
- FormState.UpdateState: requires the value to have the field's declared type (text for text fields, a flag for the two toggles). It accepts no `job1`/`job2` key. The TypeScript signature would let a caller store a boolean in a text field or replace a whole job, but no caller does, and the typed record cannot hold such a value.
