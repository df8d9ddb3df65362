# FinanceGPT calculation core, in Dafny

This project models the calculation logic of the FinanceGPT personal-finance
tutor (a Next.js application) and proves properties about it. Six parts are
modelled, each in its own module:

- **ProgressTracking** (`progress_service.dfy`). This is the learning-progress store `ProgressService`.
  - It keeps one record per module: completed sections, questions asked and minutes spent.
  - It keeps global totals of questions and minutes, and a weighted 0–100 score whose ≥ 80 result marks a module completed.
  - It has reset, export and import paths.
  - Every recording, marking, reset and import is saved to browser storage. Two changes are not saved: the lazy creation of a record when a module is first looked up, and a score check below 80. Here the class has two fields: `progress` and `storage`, the storage slot.
- **LoanEngine** (`loan_calculator.dfy`). This is the loan calculator.
  - Validation is ordered and each failure has its own error message.
  - The EMI is computed at a zero and at a positive rate.
  - The amortization schedule is built month by month. The balance is clamped at zero, and the loop stops early once the balance is paid off.
  - Switching loan type resets the rate and tenure to defaults.
  - Large amounts are shown with a B/M/K suffix.
- **CompoundGrowth** (`compound_interest.dfy`). The compound-interest chart: a year loop around a twelve-month recurrence, emitting rounded rows. A summary is read off the last row.
- **RetirementProjection** (`retirement_calculator.dfy`). The retirement calculator.
  - A year loop with a capped employer match.
  - The 4%-rule monthly income and the inflation-adjusted shortfall.
  - A three-way readiness rating.
  - Clamping of each input field to its maximum.
- **BudgetAnalytics** (`budget_service.dfy`). The budget service `BudgetService`.
  - Totals and percentages.
  - Updating one category, with its trend.
  - Spending insights.
  - The listener list, with subscribe, unsubscribe and notify.
- **ModulePrompts** (`module_prompts.dfy`). The chat's case-insensitive choice between a specialised system prompt for a learning module and the generic topic template.

Shared helpers live in two more modules:

- **Numeric** (`numeric.dfy`): `Option`, integer powers, `Math.round`, min/max/abs and small monotonicity facts.
- **Sequences** (`sequences.dfy`): the `filter(e => e !== x)` removal both services use.

All arithmetic is exact, over `real`. `Math.pow(1 + r, n)` is a power with a natural exponent. `Math.round(x)` is `⌊x + 0.5⌋`. Formatted strings are reduced to the branch chosen and the rounded number shown.

Browser storage, `JSON.parse` and `new Date()` appear as follows:

- Browser storage is the field `ProgressService.storage`.
- A parsed JSON value is a `Payload`. Each of its top-level totals is present with a usable value, or absent. A date field is a `JsonDate`: missing, `null`, the text of an instant, or other text. `JSON.stringify` writes an invalid date as `null`, and `new Date` turns `null` into the epoch and a missing value into an invalid date.
- The current time is a `now` parameter on each operation.

A listener callback is identified by a number. Each call to a listener is appended to a log field, `delivered`, so that the order of notifications can be stated.

## Model

| member | source | states |
|---|---|---|
| ProgressTracking.TouchCreatesOnce | lib/services/progressService.ts:97-109 | Looking up a missing module adds exactly one record: the given id, no sections, zero counters, not completed. Every other record is kept. An existing record leaves the store unchanged. The totals and their drift from the per-module sums are untouched. |
| ProgressTracking.QuestionAccounting | lib/services/progressService.ts:123-128 | Asking a question raises that module's count and the global total by exactly one. Minutes are unchanged, and every other module keeps its record. |
| ProgressTracking.TimeAccounting | lib/services/progressService.ts:133-138 | Recording `k` minutes raises that module's time and the global total by exactly `k`. Question counts are unchanged, and every other module keeps its record. |
| ProgressTracking.AccessKeepsCounters | lib/services/progressService.ts:114-118 | Recording an access stamps the module's last-access time and leaves every counter and total as it was. |
| ProgressTracking.SectionCompletedAdds | lib/services/progressService.ts:143-149 | After marking a section completed, it is in the list. The earlier list is kept as a prefix, at most one entry is added, and a duplicate-free list stays duplicate-free. |
| ProgressTracking.SectionCompletedIdempotent | lib/services/progressService.ts:143-149 | Marking the same section completed twice gives the same store as marking it once. |
| ProgressTracking.SectionIncompleteRemoves | lib/services/progressService.ts:154-160 | After marking a section incomplete, it is absent and every other section is still present. The result is the old list filtered piecewise, so the relative order of the kept sections is unchanged. |
| ProgressTracking.ResetModuleKeepsDrift | lib/services/progressService.ts:238-246 | Resetting a module deletes its record and subtracts exactly its counters from the totals, so the totals stay as far from the per-module sums as before (equal, if they were equal). Other records are untouched, and an absent module changes nothing. |
| ProgressTracking.ResetAllIsEmpty | lib/services/progressService.ts:251-254 | Resetting everything leaves no modules and zero totals, which is a consistent, well-formed store. |
| ProgressTracking.StampKeepsDrift | lib/services/progressService.ts:71-80 | Saving changes only the last-updated time: the records and the totals' drift are kept. |
| ProgressTracking.ScoreBounds | lib/services/progressService.ts:165-195 | The section, question and time factors are capped at 60, 30 and 10. The score is at most 100, and at least 0 for non-negative counters. |
| ProgressTracking.ScoreMonotone | lib/services/progressService.ts:165-195 | The score never falls when completed sections, questions or minutes grow. |
| ProgressTracking.ScoreThreeQuestions | lib/services/progressService.ts:165-195 | Three questions alone, out of four sections, score 9. |
| ProgressTracking.ScoreFull | lib/services/progressService.ts:165-195 | All sections done, at least 10 questions and at least 30 minutes score exactly 100. |
| ProgressTracking.CompletionCheckMonotone | lib/services/progressService.ts:197-202 | The score check sets `completed` when the score is at least 80 and never clears it. Counters, totals and drift are unchanged. |
| ProgressTracking.PutKeepsWellFormed | lib/services/progressService.ts:97-160 | Storing a record under its own id, with no duplicate sections and non-negative counters, keeps the whole store well-formed. |
| ProgressTracking.CountersKeepWellFormed | lib/services/progressService.ts:97-141 | Looking up, recording an access, a question or (for non-negative minutes) time spent keeps every record keyed by its own id, free of duplicate sections, with non-negative counters. |
| ProgressTracking.SectionsKeepWellFormed | lib/services/progressService.ts:143-160 | Marking a section complete or incomplete keeps the store well-formed: a section is added only when absent, and removed everywhere. |
| ProgressTracking.CompletionKeepsWellFormed | lib/services/progressService.ts:197-201 | The completion check keeps the store well-formed. |
| ProgressTracking.ResetKeepsWellFormed | lib/services/progressService.ts:238-246 | Resetting one module keeps the store well-formed. |
| ProgressTracking.SumRemove | lib/services/progressService.ts:238-246 | A module's counter can be taken out of the sum over all modules on its own. |
| ProgressTracking.PutSum | lib/services/progressService.ts:97-160 | Replacing one record changes the per-module sum by exactly the difference between the new and old record. |
| ProgressTracking.PutKeepsDrift | lib/services/progressService.ts:97-160 | Replacing a record with one carrying the same counters keeps the totals' drift. |
| ProgressTracking.LoadAfterSave | lib/services/progressService.ts:33-80 | What a save writes loads back as exactly the saved store, when the store's time stamp is valid and no module holds an invalid date. |
| ProgressTracking.LoadFallback | lib/services/progressService.ts:33-66 | Without a window, with nothing stored, text that fails to parse, or a payload lacking `modules` or `lastUpdated`, loading gives the default progress, which is consistent. |
| ProgressTracking.ImportedDates | lib/services/progressService.ts:259-286 | Export then import keeps every module id, record and total. Only the dates change: a valid instant comes back, an invalid or `null` date comes back as the epoch, and a missing module date comes back as an invalid date. |
| ProgressTracking.ImportAfterExport | lib/services/progressService.ts:259-286 | When every module date is a valid instant, importing an exported store, then saving, gives the same store as saving the original. |
| ProgressTracking.ProgressService.constructor | lib/services/progressService.ts:26-66 | A new service holds the loaded (or default) progress. Text that fails to parse is removed from storage. |
| ProgressTracking.ProgressService.SaveProgress | lib/services/progressService.ts:71-80 | Stamps the last-updated time (in a browser) and writes the serialized store to storage. |
| ProgressTracking.ProgressService.GetModuleProgress | lib/services/progressService.ts:97-109 | Returns the module's record, creating it if missing. The change is in memory only; storage is unchanged. |
| ProgressTracking.ProgressService.RecordModuleAccess | lib/services/progressService.ts:114-118 | The new state is the access update, stamped and saved. |
| ProgressTracking.ProgressService.RecordQuestionAsked | lib/services/progressService.ts:123-128 | The new state is the question update, stamped and saved. |
| ProgressTracking.ProgressService.RecordTimeSpent | lib/services/progressService.ts:133-138 | The new state is the time update, stamped and saved. |
| ProgressTracking.ProgressService.MarkSectionCompleted | lib/services/progressService.ts:143-149 | Adds a new section, then stamps and saves. A section already present only creates the record if missing, and nothing is saved. |
| ProgressTracking.ProgressService.MarkSectionIncomplete | lib/services/progressService.ts:154-160 | Filters the section out, then stamps and saves. |
| ProgressTracking.ProgressService.CalculateModuleProgress | lib/services/progressService.ts:165-203 | Returns the record's score. At 80 or more it sets `completed`, stamps and saves; below 80 only a missing record is created. |
| ProgressTracking.ProgressService.GetAllProgress | lib/services/progressService.ts:215-217 | Returns the whole store as it stands: every module record and both totals, unchanged by the call. |
| ProgressTracking.ProgressService.GetModuleProgressData | lib/services/progressService.ts:208-210 | Returns the module's record, creating it in memory if missing. |
| ProgressTracking.ProgressService.IsSectionCompleted | lib/services/progressService.ts:222-225 | True exactly when the section is in the module's list. The record is created in memory if missing. |
| ProgressTracking.ProgressService.GetCompletedSections | lib/services/progressService.ts:230-233 | Returns the module's section list. The record is created in memory if missing. |
| ProgressTracking.ProgressService.ResetModuleProgress | lib/services/progressService.ts:238-246 | For a present module: removes it, subtracts its counters, stamps and saves. For an absent module: nothing changes. |
| ProgressTracking.ProgressService.ResetAllProgress | lib/services/progressService.ts:251-254 | Replaces the store with the default progress, stamped and saved. |
| ProgressTracking.ProgressService.ExportProgress | lib/services/progressService.ts:259-261 | The export passes the import shape check and carries both totals and every module id. When every module date is a valid instant, importing it gives back the module map unchanged. |
| ProgressTracking.ProgressService.ImportProgress | lib/services/progressService.ts:266-286 | Succeeds exactly when the text parses to a value with `modules` and a numeric `totalQuestionsAsked`. On failure the state and storage are untouched; on success the imported store is stamped and saved. |
| ProgressTracking.ThreeQuestionsScenario | lib/services/progressService.ts:123-203 | On a fresh service, three questions on one module score 9 out of four sections, and the module is not completed. |
| LoanEngine.CalculateLoan | components/visualizations/LoanCalculator.tsx:107-182 | The result is valid exactly when amount > 0, rate ≥ 0 and 0 < years ≤ the type's maximum tenure. It is valid exactly when there is no error. An invalid result has every amount 0. The first failing check, in the order amount, rate, years ≤ 0, years > maximum, decides the error. |
| LoanEngine.ZeroRateLoan | components/visualizations/LoanCalculator.tsx:154-163 | At 0%, a valid loan is repaid in equal instalments summing to the amount, with no interest. |
| LoanEngine.InterestExceedsGrowth | components/visualizations/LoanCalculator.tsx:165-181 | For r > 0 and n ≥ 1: r·n·(1+r)^n > (1+r)^n − 1, the inequality behind the interest being positive. |
| LoanEngine.EmiDenominator | components/visualizations/LoanCalculator.tsx:165-172 | At a positive rate the EMI denominator is positive, and EMI·((1+r)^n − 1) = P·r·(1+r)^n. |
| LoanEngine.PositiveRateLoan | components/visualizations/LoanCalculator.tsx:165-181 | A valid loan at a positive rate: the total payment is EMI·months and the interest is the total minus the amount. The interest is strictly positive, and the EMI exceeds the first month's interest. |
| LoanEngine.GenerateAmortizationSchedule | components/visualizations/LoanCalculator.tsx:185-216 | The schedule equals the schedule specification: empty when the guard refuses, otherwise the rows of the month loop. |
| LoanEngine.AmortizationRows | components/visualizations/LoanCalculator.tsx:194-215 | The month loop emits exactly the specified rows: interest on the balance, the rest of the EMI against principal, the balance clamped at zero, stopping right after a row at most 0.01. |
| LoanEngine.ScheduleAppend | components/visualizations/LoanCalculator.tsx:198-212 | Loop invariant step: rows emitted plus rows still to come make the whole schedule before and after one more row, or the schedule is complete once that row is at most 0.01. |
| LoanEngine.ScheduleShape | components/visualizations/LoanCalculator.tsx:194-215 | The rows are numbered consecutively, with at most one row per remaining month. In every row interest + principal = EMI, and each row's interest is the previous balance times the monthly rate. Every balance is ≥ 0, and only the last row can be ≤ 0.01. |
| LoanEngine.ScheduleGuard | components/visualizations/LoanCalculator.tsx:190-191 | The schedule is empty exactly when the validity flag is false, rate < 0, amount ≤ 0 or years ≤ 0. |
| LoanEngine.BalanceIdentity | components/visualizations/LoanCalculator.tsx:197-200 | The unclamped balance after `k` months satisfies B·r = P·r·(1+r)^k − EMI·((1+r)^k − 1). |
| LoanEngine.BalanceClosedForm | components/visualizations/LoanCalculator.tsx:165-200 | For any EMI solving the annuity equation EMI·((1+r)^n − 1) = P·r·(1+r)^n, B(k)·((1+r)^n − 1) = P·((1+r)^n − (1+r)^k). |
| LoanEngine.AnnuityBalanceNonNegative | components/visualizations/LoanCalculator.tsx:165-200 | For such an EMI the unclamped balance is never negative within the term. |
| LoanEngine.AnnuityPaidOff | components/visualizations/LoanCalculator.tsx:165-200 | For such an EMI the unclamped balance is exactly 0 after month n. |
| LoanEngine.BalanceStepDown | components/visualizations/LoanCalculator.tsx:197-200 | An EMI of at least a month's interest on the amount never lets the balance rise from one month to the next. |
| LoanEngine.BalanceNonIncreasing | components/visualizations/LoanCalculator.tsx:197-200 | Under the same condition the balance after month j is at most the balance after month i, for every i ≤ j. |
| LoanEngine.EmiBounds | components/visualizations/LoanCalculator.tsx:165-181 | An EMI solving the annuity equation exceeds both an equal share of the amount and a month's interest on all of it. |
| LoanEngine.AnnuityBalances | components/visualizations/LoanCalculator.tsx:165-200 | For such an EMI the balance falls from the amount to 0 without ever rising or going negative. |
| LoanEngine.BalanceZeroRate | components/visualizations/LoanCalculator.tsx:197-200 | At 0% the balance after `k` months is the amount less `k` instalments. |
| LoanEngine.ZeroRateBalances | components/visualizations/LoanCalculator.tsx:154-200 | At 0% the balance never rises, stays ≥ 0, and is exactly 0 after the last month. |
| LoanEngine.PositiveRateBalances | components/visualizations/LoanCalculator.tsx:165-200 | At a positive rate the balance never rises, stays ≥ 0, and is exactly 0 after the last month. |
| LoanEngine.ValidLoanBalances | components/visualizations/LoanCalculator.tsx:107-200 | For any valid loan the balance never rises, stays ≥ 0, and reaches 0 at the end of the tenure. |
| LoanEngine.ScheduleStep | components/visualizations/LoanCalculator.tsx:197-212 | One month of the schedule: the row is appended, then the rest follows unless the balance is ≤ 0.01. |
| LoanEngine.ScheduleFollowsBalance | components/visualizations/LoanCalculator.tsx:197-212 | Following a balance path that never rises and ends at 0, the schedule is non-empty. Its last balance is ≤ 0.01 and its balances never rise. |
| LoanEngine.ScheduleHead | components/visualizations/LoanCalculator.tsx:197-212 | When the next balance is not negative, the first row emitted carries that balance and the clamp does not fire. |
| LoanEngine.ValidLoanIsPaidOff | components/visualizations/LoanCalculator.tsx:107-216 | For a valid loan the schedule has 1 to years·12 rows. Its first balance is at most the amount, its balances never rise, and its last balance is ≤ 0.01. |
| LoanEngine.StaleFlagHidesSchedule | components/visualizations/LoanCalculator.tsx:185-240 | As written, a previously invalid calculation hides the schedule of a now-valid loan (500,000 at 8.5% over 20 years). |
| LoanEngine.FreshFlagShowsSchedule | components/visualizations/LoanCalculator.tsx:185-240 | With the fresh validity flag, a schedule is shown exactly when the calculation is valid, and it ends paid off. When the previous flag was valid, as-written and corrected agree. |
| LoanEngine.DefaultsAreValid | components/visualizations/LoanCalculator.tsx:243-247 | Each type's default rate (minimum + 1) lies within its rate range. Its default tenure, min(10, maximum), is within the tenure limit, so any positive amount is valid with the defaults. |
| LoanEngine.FormatThresholds | components/visualizations/LoanCalculator.tsx:460-478 | "B" exactly from 999,500,000; "M" on [1,000,000, 999,500,000); "K" on [100,000, 1,000,000); plain below 100,000. The "M" figure stays below 1000.0. |
| LoanEngine.ThousandsShowsOneThousand | components/visualizations/LoanCalculator.tsx:471-472 | As written, 999,500 is shown as "1000K". |
| LoanEngine.GuardedFormatStaysBelowNextUnit | components/visualizations/LoanCalculator.tsx:464-475 | With a guard like the one before "M", the "K" figure stays in [100, 1000) and "M" starts at 999,500. The output is unchanged outside [999,500, 1,000,000). |
| CompoundGrowth.CalculateCompoundInterest | components/visualizations/CompoundInterestChart.tsx:104-133 | One row per year 0..years, none for negative years. Row `i` is year `i`'s rounded balance, contributions and interest. The balance between years advances by twelve monthly steps. |
| CompoundGrowth.SummaryIsLastYear | components/visualizations/CompoundInterestChart.tsx:104-138 | For the computed rows the summary is the final year's row; with negative years there is none. |
| CompoundGrowth.FirstRow | components/visualizations/CompoundInterestChart.tsx:107-118 | Year 0 shows the rounded principal as both balance and contributions, and 0 interest. |
| CompoundGrowth.ContributionsNonDecreasing | components/visualizations/CompoundInterestChart.tsx:110-111 | With a non-negative deposit, the contributions shown never fall from year to year. |
| CompoundGrowth.RoundingGap | components/visualizations/CompoundInterestChart.tsx:110-118 | Interest is balance minus contributions before rounding; after rounding the three figures differ by at most 1. |
| CompoundGrowth.MonthsZeroRate | components/visualizations/CompoundInterestChart.tsx:122-124 | At 0%, `k` months only add `k` deposits. |
| CompoundGrowth.ZeroRateGrowth | components/visualizations/CompoundInterestChart.tsx:106-124 | At 0% the balance equals principal + 12·deposit·years, and the interest shown is 0. |
| CompoundGrowth.MonthsAtLeastDeposits | components/visualizations/CompoundInterestChart.tsx:122-124 | With a non-negative rate and deposit, `k` months add at least `k` deposits. |
| CompoundGrowth.GrowthCoversContributions | components/visualizations/CompoundInterestChart.tsx:106-124 | With nothing negative, the balance is never below what was paid in, so the interest shown is never negative. |
| RetirementProjection.EmployerMatchAmount | components/visualizations/RetirementCalculator.tsx:85-89 | The match is the smaller of income·match% and the employee's own annual contribution, so it never exceeds either. |
| RetirementProjection.AdjustedTargetIncome | components/visualizations/RetirementCalculator.tsx:116-119 | The inflation-adjusted target is a finite number, except when 0 is raised to a negative power (inflation −100% with retirement already past), which gives ±Infinity or NaN. |
| RetirementProjection.Shortfall | components/visualizations/RetirementCalculator.tsx:113-122 | The shortfall is never negative and at least target − income. It is 0 exactly when the 4%-rule income reaches the target. With a target that is not a finite number it is not one either, except that a negative income gives 0. |
| RetirementProjection.CalculateProjection | components/visualizations/RetirementCalculator.tsx:78-123 | One row per year 0..years-to-retirement, none if retirement age is below current age. Row `y` is the year-`y` row of the growth recurrence. The total, monthly income and shortfall are those of the final value. |
| RetirementProjection.ProjectionYear | components/visualizations/RetirementCalculator.tsx:83-107 | One turn of the year loop, as written, reaches the year's value and its row from the previous year's value. |
| RetirementProjection.ValueGrows | components/visualizations/RetirementCalculator.tsx:91-96 | With non-negative inputs, each year adds at least the contribution plus the match to a non-negative value. |
| RetirementProjection.ValueCoversContributions | components/visualizations/RetirementCalculator.tsx:91-107 | With non-negative inputs, the value is at least the savings plus all contributions and matches so far. The row's "total savings" is at least the starting savings. |
| RetirementProjection.FirstRow | components/visualizations/RetirementCalculator.tsx:83-107 | Year 0 shows the current age and the current savings as value and savings. It shows no interest, and a match within the contribution. |
| RetirementProjection.NoYearsLeft | components/visualizations/RetirementCalculator.tsx:80-114 | With retirement age below current age, the total stays the current savings and the monthly income is savings/300. |
| RetirementProjection.ReadinessThresholds | components/visualizations/RetirementCalculator.tsx:213-230 | For positive income: "On Track" exactly from 20× income (80% over 25 years), "Good Progress" exactly on [15×, 20×), "Needs Improvement" below 15×. |
| RetirementProjection.HandleInputChange | components/visualizations/RetirementCalculator.tsx:128-149 | The changed field becomes min(value, its maximum) and every other field is unchanged. |
| RetirementProjection.ClampProperties | components/visualizations/RetirementCalculator.tsx:128-149 | The stored value never exceeds the value given or the field's maximum. It is unchanged exactly when within the maximum, and clamping again changes nothing. |
| BudgetAnalytics.TotalsIdempotent | lib/services/budgetService.ts:205-214 | Recomputing totals on totalled data changes nothing. |
| BudgetAnalytics.SumValuesUpdate | lib/services/budgetService.ts:206-243 | Replacing one category changes the sum by the difference of its values. |
| BudgetAnalytics.PercentagesInRange | lib/services/budgetService.ts:205-214 | With non-negative values every percentage is defined and lies in 0..100. |
| BudgetAnalytics.InitialTotals | lib/services/budgetService.ts:42-214 | The initial data totals 4,300 spent and 4,800 budget, and housing is 31%. |
| BudgetAnalytics.InitialIsTotalled | lib/services/budgetService.ts:42-214 | The data the service starts with, once its totals are computed, is a fixed point: computing the totals again changes nothing. |
| BudgetAnalytics.FindIndex | lib/services/budgetService.ts:222-223 | The first category with the id, or none exactly when no category has it. |
| BudgetAnalytics.TrendThresholds | lib/services/budgetService.ts:228-239 | For a positive old value the trend is up exactly from +2%, down exactly from −2%, stable strictly between. The trend value is the absolute percent change. An old value ≤ 0 gives stable and 0. |
| BudgetAnalytics.UpdateChangesOneCategory | lib/services/budgetService.ts:221-250 | An unknown id changes nothing. For a known id, only that category's value, trend and trend value change, apart from the recomputed percentages. Spent changes by the difference, and the data stays totalled. |
| BudgetAnalytics.InsightFor | lib/services/budgetService.ts:255-273 | At most one insight per category: a warning exactly when over target, a success exactly when under 80% of target, each naming the category. |
| BudgetAnalytics.CategoryInsightsAppend | lib/services/budgetService.ts:255-273 | Insights are produced category by category in order: those of a concatenation are the concatenation. |
| BudgetAnalytics.CategoryInsightsBounded | lib/services/budgetService.ts:255-273 | There are at most as many category insights as categories, none of them the overall warning. |
| BudgetAnalytics.NoOverallWarning | lib/services/budgetService.ts:276-283 | On totalled data spending never exceeds the budget, so the overall warning never appears. |
| BudgetAnalytics.UnsubscribeUndoesSubscribe | lib/services/budgetService.ts:301-310 | Unsubscribing a callback that was new undoes its subscription. Afterwards it is never called, and every other listener still is. |
| BudgetAnalytics.BudgetService.constructor | lib/services/budgetService.ts:42-203 | A new service holds the initial data with its totals computed (consistent by InitialIsTotalled) and has no listeners. |
| BudgetAnalytics.BudgetService.CalculateTotals | lib/services/budgetService.ts:205-214 | The data becomes its totalled form; listeners are untouched. |
| BudgetAnalytics.BudgetService.GetBudgetData | lib/services/budgetService.ts:216-219 | Recomputes the totals and returns the data. |
| BudgetAnalytics.BudgetService.NotifyListeners | lib/services/budgetService.ts:308-310 | Every listener, in order, receives the current data; the data is unchanged. |
| BudgetAnalytics.BudgetService.UpdateCategoryBudget | lib/services/budgetService.ts:221-250 | Applies the one-category update and keeps the data totalled. An unknown id notifies no one; a known id notifies every listener, in order, of the new data. |
| BudgetAnalytics.BudgetService.GetSpendingInsights | lib/services/budgetService.ts:252-286 | Returns the category insights in order, then the overall warning when spent exceeds budget, which on totalled data it never does. |
| BudgetAnalytics.BudgetService.Subscribe | lib/services/budgetService.ts:301-306 | Appends the callback and returns its unsubscriber. |
| BudgetAnalytics.BudgetService.Unsubscribe | lib/services/budgetService.ts:303-305 | Removes every occurrence of the callback and keeps the other listeners in order. |
| Sequences.RemoveAllMembers | lib/services/progressService.ts:156 | After filtering, an entry is present exactly when it was before and is not the removed one. |
| Sequences.RemoveAllAppend | lib/services/budgetService.ts:304 | Filtering a concatenation filters each part in order. |
| Sequences.RemoveAllAbsent | lib/services/budgetService.ts:304 | Filtering out an entry that is not listed changes nothing. |
| Sequences.RemoveAllNoDuplicates | lib/services/progressService.ts:156 | Filtering keeps a duplicate-free list duplicate-free. |
| ModulePrompts.ToLower | lib/gemini/modulePrompts.ts:421 | Lowercasing keeps the length and lowercases each letter; an already-lowercase string is unchanged. |
| ModulePrompts.ToLowerIdempotent | lib/gemini/modulePrompts.ts:421 | Lowercasing twice is lowercasing once. |
| ModulePrompts.GetModulePrompt | lib/gemini/modulePrompts.ts:420-446 | A specialised prompt is only ever one of the six table entries. |
| ModulePrompts.PromptChoice | lib/gemini/modulePrompts.ts:420-452 | A specialised prompt is chosen exactly when the lower-cased topic is a key, and it is that key's entry. Otherwise the generic template names the topic in its original spelling. |
| ModulePrompts.AvailableModulesHavePrompts | lib/gemini/modulePrompts.ts:450-455 | Every listed module has its own specialised prompt. |
| ModulePrompts.AvailableModulesWellFormed | lib/gemini/modulePrompts.ts:2-455 | Six distinct lower-case keys: budgeting, investing, saving, debt, retirement, goals, in declaration order. |
| ModulePrompts.CaseInsensitive | lib/gemini/modulePrompts.ts:420-452 | Topics that lowercase alike have the same availability and, when available, the same prompt. |
| ModulePrompts.CapitalisedLowersBack | lib/gemini/modulePrompts.ts:421 | A lower-case word written with a capital first letter lowercases back to the word itself. |
| ModulePrompts.SameSpecialistForBothSpellings | lib/gemini/modulePrompts.ts:421-424 | "Budgeting" and "budgeting" get the same budgeting prompt. |
| ModulePrompts.UnknownTopicKeepsSpelling | lib/gemini/modulePrompts.ts:428-446 | An unknown topic such as "Taxes" gets the generic template with "Taxes" as written. |

## Left out

- Floating point: all arithmetic is exact over `real`. IEEE rounding, overflow and `NaN` are not modelled, except where a division by zero decides a branch. A zero budget gives no percentage (`None`), and a target of 0 makes readiness follow the comparisons of `Infinity`/`NaN`. `0` raised to a negative power gives no adjusted target (`None`).
- Fractional tenure, years and ages: loan tenure, chart years and retirement ages are whole numbers, so `Math.pow` only ever has a natural or integer exponent.
- RetirementProjection.HandleInputChange: requires an age field's new value to be a whole number of years, because ages are integers in this model. The UI's number inputs could pass a fraction.
- Exact strings: `toFixed` and `toLocaleString` output, the error-message wording beyond its kind and parameters, and the insight texts and actions are reduced to what is chosen and which figures are shown.
- Presentation-only fields: category colours, loan-type descriptions and icons, readiness colours and icons.
- The second copy of `formatLargeNumber` (components/visualizations/LoanCalculator.tsx:549-567) is identical to the first and is covered by the same functions.
- test-number-formatting.js, an older copy of `formatLargeNumber` without the 999.5M guard, is not part of this model.
- Lowercasing covers ASCII letters only; other scripts' case mapping is not modelled.
- The JavaScript `in` at lib/gemini/modulePrompts.ts:423 and 451 also accepts inherited property names such as "constructor". The model looks up the six own keys only.
- The truthiness lookup `this.progress.modules[moduleId]` at lib/services/progressService.ts:98 also sees inherited property names such as "constructor", "toString" or "__proto__". For such an id the source creates no record: `getModuleProgress` returns the inherited object, and the recording methods write into it. With "__proto__" that pollutes the prototype. The model treats every module id as an own key, so such an id gets a fresh record, and TouchCreatesOnce and AccessKeepsCounters describe that record.
- The prompt texts are content, not logic: a prompt is modelled by which table entry, or which topic in the template, was chosen.
- Browser storage, `JSON.parse`/`JSON.stringify` and `new Date()`: storage is a field, a parse result is a `Payload` of optional typed fields, and the time is a parameter. A module entry of a payload always has typed fields, so an import that throws on a `null` module entry is not modelled. Storage write failures and quota errors are not modelled. Neither is the logging of load errors.
- ProgressTracking.LoadProgress and ProgressTracking.ProgressService.constructor require a stored payload that passes the shape check (`modules` and `lastUpdated` present) to carry both numeric totals. The source accepts such a payload without them, and its later `++`/`+=` then give `NaN` totals, which the integer model has no value for.
- ProgressTracking.ProgressService.ImportProgress: requires an accepted payload to carry a numeric `totalTimeSpent` as well, for the same reason.
- ProgressTracking.ImportAfterExport: holds only when every module date is a valid instant. `JSON.stringify` writes an invalid date as `null`, and the import's `new Date(null)` turns it into the epoch, so such a store does not come back unchanged (ImportedDates states what comes back). Without a window the same holds for the top-level time stamp.
- ProgressTracking.LoadAfterSave: holds only when no module date is invalid. The invalid date is saved as `null`, and `loadProgress` converts only truthy dates, so it is loaded back as `null`.
- BudgetAnalytics.BudgetService.GetBudgetData returns the data as a value. The source returns a shallow copy whose `categories` is the service's own array (lib/services/budgetService.ts:216-219). A later `updateCategoryBudget` writes the updated category into that array in place (lib/services/budgetService.ts:243) before the totals replace it. A snapshot a caller already holds therefore sees the new value with stale totals and percentage. Neither the shared array nor that write seen through it is modelled.
- ProgressTracking.ProgressService.GetModuleProgressData returns the record as a value. The source returns the record object stored in `this.progress.modules`, by reference (lib/services/progressService.ts:97-109 and 208-210). A record a caller holds therefore shows every later in-place update to it: `questionsAsked++`, `timeSpent +=`, `lastAccessed =`, the `completedSections` push or reassignment, and `completed = true`. A write through it changes the store. Neither of these is modelled. The same holds for ProgressTracking.ProgressService.GetModuleProgress.
- ProgressTracking.ProgressService.GetAllProgress returns the store itself; the shallow copy the source hands out, and aliasing through it, are not modelled.
- The invariant "global totals equal the sum over modules" is not a class invariant: loading or importing a payload can break it. Instead every operation except load and import is proved to keep the distance between the totals and the sums unchanged (`Drift`), so a consistent store stays consistent.
- BudgetAnalytics.BudgetService.UpdateCategoryBudget and NotifyListeners require the data to be totalled. The constructor establishes this (its data is `Totals(InitialData())`, totalled by InitialIsTotalled) and every method keeps it, so no caller of the class can break it.
- `BudgetService.simulateRealTimeUpdates` (lib/services/budgetService.ts:288-299) runs on a timer with random fluctuations, and is left out.
- Listeners are numbers, not functions: what a listener does when called, including calling back into the service, is not modelled.
- The loan type read inside `calculateLoan` comes from the render closure; the model passes it as a parameter.
- The closed-form summary inside app/visualizations/page.tsx is not part of this model; the chart's own loop is.
- UI rendering, animation, charts, the chat and network code, timers and event handlers are outside the calculation core.

## Findings

| source | as written | input that shows it | evidently intended | confidence | as-written member | corrected member |
|---|---|---|---|---|---|---|
| components/visualizations/LoanCalculator.tsx:185-240 | The schedule guard reads `calculation.isValid` from the previous render. The effect computes the new calculation and builds the schedule before that state update lands. | Starting from an invalid calculation, enter 500,000 at 8.5% over 20 years for a home loan: the new calculation is valid but the schedule is empty. | Guard the schedule with the validity of the calculation just computed. | not executed | LoanEngine.StaleFlagHidesSchedule | LoanEngine.FreshFlagShowsSchedule |
| components/visualizations/LoanCalculator.tsx:471-472 | The "K" branch divides by 1,000 and rounds to no decimals. There is no guard like the one that moves 999.5M to "B". | 999,500 is shown as "1000K". | Values from 999,500 up are shown as "1.0M", as the "M" branch already guards its own upper end. | not executed | LoanEngine.ThousandsShowsOneThousand | LoanEngine.GuardedFormatStaysBelowNextUnit |
