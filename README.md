# settings-bill in Dafny

This project models `settings-bill.js`, a phone bill that keeps its state in a
closure: the `SettingsBill` factory. One bill object holds two independent
billing models.

- **Action-log billing.** `setSettings` stores an sms cost, a call cost, a
  warning level and a critical level. `recordAction(type)` appends
  `{type, cost, timestamp}` to the action list, where the cost is copied from
  the settings. It appends only while the critical level has not been reached.
  `actionsFor`, `getTotal`, `grandTotal` and `totals` filter and sum the log.
  `hasReachedWarningLevel` and `hasReachedCriticalLevel` compare the grand
  total with the two levels. `resetButton` empties the log.
- **Accumulator billing.** Four separate fields (`theCallCost`, `theSmsCost`,
  `theWarningLevel`, `theCriticalLevel`) each have a setter and a getter.
  `makeCall` and `sendSms` add the unit cost to a running call or sms total.
  `getTotalCost` is the sum of the two running totals. `totalClassName` turns
  that sum into `"critical"`, `"warning"` or nothing.

The bill is the class `Billing.SettingsBill`. Its fields are the closure's
variables. Each mutating operation is a method whose `modifies` clause names
only the fields it assigns, so "nothing else changes" is part of every
contract. The read-only queries are functions over those fields.

`actionsFor` and `getTotal` are index loops in the source, and they stay loops
here. They are proved against the recursive specification functions
`ActionLog.Filter` and `ActionLog.Total`. The properties the source relies on
are lemmas about those functions:

- filtering is the in-order subsequence of matching entries;
- its length is the number of matching entries;
- appending an entry changes only the total of its own type.

JavaScript's number semantics are modelled where the code depends on them
(module `JsNumbers`):

- A setting that was never assigned is `undefined`.
- `undefined + x` is `NaN`, and `NaN` absorbs every later sum.
- Every `>=` or `<` with `undefined` or `NaN` on either side is false.

An sms or call recorded before `setSettings` therefore stores an `undefined`
cost (an action of any other type stores 0). The grand total is then `NaN`, and
neither level is reported until `resetButton` empties the log
(`Scenarios.RecordBeforeSettings`, `Scenarios.ResetClearsUndefinedCost`,
`Scenarios.OtherTypeBeforeSettings`). Finite amounts are exact `real`s.

The guard of `makeCall` and `sendSms` is `hasReachedCriticalLevel()`, which
compares the action-log grand total with the `setSettings` critical level
(settings-bill.js:112-115, 152, 171). It never looks at the accumulators or at
`theCriticalLevel`; a version that would is commented out at
settings-bill.js:176-178. The model follows the code. While the action log is
empty and no critical level of at most 0 has been set, the running totals keep
growing past `theCriticalLevel`. The test suite expects a clamp at 10 and a
resumption at 15 (test/settings-bill-test.js:272, 289, 296). The model instead
proves the values the code computes, 12.50 and 17.50
(`Scenarios.CriticalDoesNotClampAccumulators`, `Scenarios.RaisedCriticalLevel`).

Files:

- `wrappers.dfy`: `Option`.
- `js_numbers.dfy`: JavaScript `+`, `>=` and `<` on numbers that may be
  `undefined` or `NaN`.
- `action_log.dfy`: log entries, filtering, sums and their lemmas.
- `billing.dfy`: the level and class-name classification and the
  `SettingsBill` class.
- `scenarios.dfy`: the situations of the module's test suite, replayed on the
  model.

## Model

| member | source | states |
|---|---|---|
| JsNumbers.Plus | settings-bill.js:84 | The sum is a number exactly when both operands are numbers, and then it is their sum; it is never `undefined` (an undefined operand gives `NaN`) |
| JsNumbers.Comparisons | settings-bill.js:104-115 | `total < level` excludes `total >= level`; on numbers they are complementary; with `undefined`/`NaN` on either side both are false |
| JsNumbers.PlusRegroup | settings-bill.js:90-92 | The model's addition (exact reals, with `NaN` absorbing) is associative and commutative, so in the model the grand total does not depend on summation order; JavaScript's double addition is only commutative |
| ActionLog.SumCosts | settings-bill.js:78-88 | A sum of costs starting at 0 is never `undefined` |
| ActionLog.FilterAppendOne | settings-bill.js:65-76 | Appending an entry extends the filtered log by that entry exactly when its type matches, and otherwise leaves it unchanged |
| ActionLog.FilterAppend | settings-bill.js:65-76 | Filtering distributes over concatenation of logs, so the result is the in-order subsequence of matching entries |
| ActionLog.FilterSound | settings-bill.js:65-76 | Every filtered entry has the requested type and occurs in the log |
| ActionLog.FilterEmptyIff | settings-bill.js:65-76 | The filtered log is empty if and only if no entry has the requested type |
| ActionLog.FilterCount | settings-bill.js:65-76 | The filtered log's length is the number of occurrences of the type among the log's types |
| ActionLog.SumCostsIsNumber | settings-bill.js:78-88 | A total is a number if and only if every cost it adds is a number; one `undefined` cost makes it `NaN` |
| ActionLog.SumCostsNonNegative | settings-bill.js:78-88 | Non-negative numeric costs add up to a non-negative number |
| ActionLog.TotalAppendOne | settings-bill.js:78-88 | Appending an entry adds its cost to the total of its own type and leaves the total of every other type unchanged |
| ActionLog.GrandTotalAppendOne | settings-bill.js:90-92 | Appending an sms or call entry adds its cost to the grand total; an entry of any other type never contributes |
| Billing.WarningReached | settings-bill.js:104-110 | Reaching the warning level implies not reaching the critical level |
| Billing.LevelsOnNumbers | settings-bill.js:104-115 | On numbers: critical iff total >= critical level; warning iff warning level <= total < critical level; never both |
| Billing.LevelsAtCritical | settings-bill.js:104-115 | At a total equal to the critical level, critical holds and warning does not, for any warning level |
| Billing.LevelsNotNumbers | settings-bill.js:104-115 | With the critical level unset or a `NaN` total, neither level is reported |
| Billing.GuardOnEmptyLog | settings-bill.js:112-115 | On an empty log the critical guard holds if and only if a critical level of at most 0 has been set |
| Billing.ClassName | settings-bill.js:180-188 | "critical" iff total >= critical level; "warning" iff warning level <= total < critical level; no class name iff the total is below both |
| Billing.ClassNameMonotone | settings-bill.js:180-188 | For any warning and critical levels, a larger total never gets a less severe class name |
| Billing.ClassNameWarningAboveCritical | settings-bill.js:180-188 | With a warning level above the critical level (which the setters accept) no total is classed "warning": it is "critical" from the critical level on and has no class name below it |
| Billing.ClassNameRaiseCritical | settings-bill.js:180-188 | Raising the critical level above a critical total that is at or above the warning level turns "critical" into "warning" |
| Billing.SettingsBill.constructor | settings-bill.js:3-17 | A new bill has all four settings `undefined`, the four accumulator settings and both running totals 0, and an empty log |
| Billing.SettingsBill.ResetButton | settings-bill.js:21-23 | Only the log changes: it becomes empty, so every type's total and the grand total are 0 |
| Billing.SettingsBill.SetSettings | settings-bill.js:25-40 | Afterwards `getSettings` returns exactly the four given values; only the four settings change |
| Billing.SettingsBill.HasReachedWarningLevel | settings-bill.js:104-115 | The warning level being reached excludes the critical level being reached |
| Billing.SettingsBill.RecordAction | settings-bill.js:42-59 | If the critical level was reached the log is unchanged. Otherwise exactly one entry is appended with cost = sms cost, call cost or 0 by type, and the grand total grows by that cost for sms/call and is unchanged for other types. Only the log changes |
| Billing.SettingsBill.ActionsFor | settings-bill.js:65-76 | The loop returns exactly the filtered log: the in-order matching entries (see the Filter lemmas) |
| Billing.SettingsBill.GetTotal | settings-bill.js:78-88 | The loop returns exactly the sum of the costs of the entries of that type |
| Billing.SettingsBill.ComputeGrandTotal | settings-bill.js:90-92 | Returns the grand total: the sms total plus the call total of the log |
| Billing.SettingsBill.GetTotals | settings-bill.js:94-102 | The three totals are the sms total, the call total and their sum |
| Billing.SettingsBill.SetCallCost | settings-bill.js:119-125 | `getCallCost` returns the value set; only `theCallCost` changes, so the critical guard is unaffected |
| Billing.SettingsBill.SetSmsCost | settings-bill.js:127-133 | `getSmsCost` returns the value set; only `theSmsCost` changes |
| Billing.SettingsBill.SetWarningLevel | settings-bill.js:135-141 | `getWarningLevel` returns the value set; only `theWarningLevel` changes |
| Billing.SettingsBill.SetCriticalLevel | settings-bill.js:143-149 | `getCriticalLevel` returns the value set; only `theCriticalLevel` changes, so the critical guard is unaffected |
| Billing.SettingsBill.MakeCall | settings-bill.js:151-155 | Adds the call cost to the call total when the action-log critical level has not been reached, else nothing; nothing else changes and the guard keeps its value |
| Billing.SettingsBill.SendSms | settings-bill.js:170-174 | Adds the sms cost to the sms total when the action-log critical level has not been reached, else nothing; nothing else changes and the guard keeps its value |
| Scenarios.RecordBeforeSettings | test/settings-bill-test.js:7-30 | A call recorded before any settings is logged; the settings then read back exactly; the grand total is `NaN` and the critical level is not reached |
| Scenarios.ResetClearsUndefinedCost | settings-bill.js:21-59 | After a call recorded before any settings the critical level is not reported; after `resetButton` one call reaches it |
| Scenarios.OtherTypeBeforeSettings | settings-bill.js:42-59 | An action of another type recorded before any settings is logged and leaves the grand total at 0 |
| Scenarios.TotalsAfterOneEach | test/settings-bill-test.js:32-48 | A call then an sms give totals 2.35 / 3.35 / 5.70 |
| Scenarios.TotalsAfterTwoEach | test/settings-bill-test.js:50-68 | Two calls then two sms give totals 4.70 / 6.70 / 11.40 |
| Scenarios.WarningLevelScenario | test/settings-bill-test.js:70-83 | A total of 7.50 with levels 5 and 10 reaches warning and not critical |
| Scenarios.CriticalLevelScenario | test/settings-bill-test.js:85-99 | Two calls reach 10.00 = critical, so the following sms is not logged |
| Scenarios.AccumulatedCalls | test/settings-bill-test.js:170-183 | Three calls at 2.25 make the total and call total 6.75 and the sms total 0 |
| Scenarios.AccumulatedCallsAndSms | test/settings-bill-test.js:213-226 | One call at 1.35 and two sms at 0.85 give 3.05 = 1.35 + 1.70 |
| Scenarios.WarningClassName | test/settings-bill-test.js:231-243 | 5.40 with levels 5 and 10 gives "warning", the name the view receives |
| Scenarios.CriticalClassName | test/settings-bill-test.js:245-257 | 10.00 with warning 10 and critical left at 0 gives "critical", the name the view receives |
| Scenarios.FiveCallsPastCritical | test/settings-bill-test.js:275-287 | Five calls at 2.50 with critical level 10 all count (12.50), because the guard reads the empty action log |
| Scenarios.CriticalDoesNotClampAccumulators | test/settings-bill-test.js:275-289 | After those calls the class name is "critical" and the call total is 12.50, not clamped at 10 |
| Scenarios.RaisedCriticalLevel | test/settings-bill-test.js:288-296 | Raising the critical level to 20 gives "warning" with no cost changing; two more calls give 17.50 |

## Left out

- `index.js` (the Express and handlebars wiring, the route handlers and the port binding) is not part of this model; it is I/O plumbing with no billing logic.
- The `moment` import and `new Date()` read the wall clock. The timestamp is a parameter of `RecordAction`, stored unchanged and never inspected.
- Billing.SettingsBill.RecordAction, ActionLog.GrandTotalAppendOne, Billing.SettingsBill.HasReachedCriticalLevel and Billing.SettingsBill.HasReachedWarningLevel compute the grand total and compare it with the levels exactly. JavaScript sums doubles, whose rounding can leave a sum one step below a level the exact sum reaches. For example, with an sms cost of 0.7, a call cost of 0.1 and a critical level of 0.8, one sms and one call sum to 0.7999999999999999 in JavaScript, so a third action is still logged; the model drops it. Floating-point rounding is not modelled.
- `toFixed(2)` in `totals()` rounds for display and returns strings. `GetTotals` returns the exact sums; rounding and floating-point error are not modelled.
- `Number(...)` coercion in `setSettings`, and the string-valued levels it leaves uncoerced, are not modelled. Inputs are numbers, so `SetSettings` takes reals and stores them as numbers. A missing field that would become `NaN` or `undefined` is not modelled; an unset setting is `undefined` only before the first `setSettings`.
- The accumulator setters take reals. JavaScript would also accept strings and concatenate them on `+=`; that is not modelled.
- `actions()`, `getSettings()`, the accumulator getters, `getTotalCost()`, `getTotalCallCost()`, `getTotalSmsCost()` and `totalClassName()` are plain functions over the fields (`Actions`, `GetSettings`, `GetCallCost` …, `TotalClassName`). Their meaning is stated by the setter contracts above and by `Billing.ClassName`, which `TotalClassName` applies to `getTotalCost()` and the two accumulator levels.
- `hasReachedCriticalLevel()` (settings-bill.js:112-115) and the cost lookup of `recordAction` (settings-bill.js:45-51) are also plain functions without a contract of their own: `SettingsBill.HasReachedCriticalLevel` applies `Billing.CriticalReached` to the log's grand total and the `setSettings` critical level, and `SettingsBill.UnitCost` picks the sms cost, the call cost or 0. Their meaning is stated by `Billing.LevelsOnNumbers`, `Billing.LevelsNotNumbers` and `Billing.GuardOnEmptyLog`, and by the contracts of `RecordAction`, `MakeCall` and `SendSms`, which use them.
- The clamp of the accumulators at the critical level, and the resumption after raising it (test/settings-bill-test.js:259-299), are not proved. The code does not implement them, and the scenarios above prove what the code does instead.
