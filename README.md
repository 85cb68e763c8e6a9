# gastos-pareja — a verified model of the household-expense core

gastos-pareja is a mobile web app for a couple that share expenses. Each
expense records who paid, how it is split and the category. The app uses
these records to keep a running balance ("who owes whom") and to settle up.
It also shows month views, a category breakdown, a CSV export, per-category
budgets, a reminder to record expenses and a list of monthly "insights".
This project models that logic in Dafny, file by file, and proves what the
code promises about it.

Modules, in the order the app's layers stack:

- `Wrappers`, `Seqs`, `Text`, `Numbers`, `Records` and `Sorting` hold the
  shared vocabulary:
  - `Option`;
  - filtering and summing over sequences;
  - JavaScript-style string comparison;
  - `Array.join` / `String.split`;
  - `parseFloat`, and `String(x)` for numbers;
  - `Math.round` / `Math.ceil`;
  - insertion-ordered string records (a JavaScript object or `Map`);
  - the stable descending sort.
- `Domain` holds the records of `src/types/database.ts`, the split-type
  names, the month filter and the payer filter.
- `Ledger` holds `calculateOwed`, `calculateBalance` (a loop proved against
  its sum) and `cn`, from `src/lib/utils.ts`.
- `Store` holds the client store of `src/store/useStore.ts`: a class whose
  methods replace its fields. `partialize` is the persisted snapshot.
- `OfflineQueue` is the queue of `src/lib/offline-queue.ts`, over a
  key→text storage map and an abstract JSON codec.
- `ExpenseActions` holds `createExpense`, `editExpense` and `deleteExpense`
  of `src/hooks/useExpenses.ts`. These are optimistic updates whose network
  outcome is a parameter.
- `CatTotals`, `Breakdown`, `Dashboard`, `Reports` and `ExpensesPage` hold
  the derived views of the pages:
  - per-category totals;
  - the chart data;
  - the settle-up dialog;
  - the six-month comparison;
  - the CSV text;
  - the filtered expense list.
- `Insights` and `InsightsBuilder` hold the monthly insight rules of
  `MonthlyInsights.tsx`:
  - `Insights` gives a specification function for each section and for the
    whole list;
  - `InsightsBuilder` holds the imperative builder that pushes onto
    `results`, proved equal to the specification.
- `ExpenseModal`, `ExpenseCard`, `Reminder`, `BudgetModal` and `Budgets`
  hold the small state machines and selectors inside the components:
  - the amount keypad and the save request;
  - the swipe-to-delete card and its labels;
  - the reminder decision table;
  - the budget sheet;
  - the month-keyed budget selectors.

Inputs and numbers:

- Dates are ISO `yyyy-MM-dd` strings, compared as JavaScript compares
  strings.
- Everything the code reads from the clock or the time zone is an explicit
  input:
  - today's day;
  - the number of days in the month;
  - the day `new Date(end)` reads;
  - each expense's weekday;
  - the days since the last entry.
- Ids and timestamps are parameters.
- Amounts are mathematical reals.

The project's own description and the code disagree in three places. The
model follows the code in each:

- What an expense owes is computed relative to `paid_by`. `created_by` is
  never read.
- An unknown `split_type` counts for 0, not as an even split.
- In `calculateBalance`, a settlement paid by the viewer subtracts its
  amount and every other settlement adds it. This is the opposite of
  "a payment I made reduces what I owe"; see Findings.

## Model

| member | source | states |
|---|---|---|
| Numbers.Round | src/components/reports/MonthlyInsights.tsx:55 | `Math.round`: the integer within half a unit of x, halves rounding up |
| Numbers.Ceil | src/components/reports/MonthlyInsights.tsx:189 | `Math.ceil`: the least integer not below x |
| Numbers.Clamp | src/components/expenses/ExpenseCard.tsx:29 | `Math.max(lo, Math.min(hi, x))` lies in [lo, hi], is x inside it and the nearer bound outside |
| Numbers.Abs | src/pages/Dashboard.tsx:282 | `Math.abs` is non-negative and is x or -x |
| Text.ParseDigits | src/components/expenses/ExpenseModal.tsx:31 | `parseFloat` of a digit string is the number it denotes, and NaN (None) for the empty string |
| Text.ShowNumberParses | src/pages/Dashboard.tsx:282 | `String(n)` of a whole number reads back through `parseFloat` as n |
| Text.KeepDigitsIdempotent | src/components/reports/BudgetModal.tsx:108 | the `replace(/[^0-9]/g, '')` sanitiser is idempotent and leaves digit strings alone |
| Text.SplitJoin | src/lib/utils.ts:92 | joining non-empty words with a separator they do not contain and splitting at it gives the words back |
| Sorting.SortDesc | src/pages/Dashboard.tsx:63 | `sort((a, b) => b.value - a.value)`: same length, a permutation, non-increasing |
| Sorting.SortDescStable | src/components/reports/MonthlyInsights.tsx:99-101 | the sort is stable: the entries of any one key keep their input order, so ties go to the entry that came first |
| Sorting.SortDescFirstIsMax | src/components/reports/MonthlyInsights.tsx:99-101 | the first entry after the sort has the largest key of the list |
| Records.Get | src/components/reports/BudgetModal.tsx:38 | reading a record key finds a value exactly when the key is present |
| Records.PutSpec | src/components/reports/BudgetModal.tsx:53 | assigning a key stores its value, keeps the keys unique and leaves every other key's value unchanged |
| Domain.ParseSplitType | src/types/database.ts:1 | a stored `split_type` is one of the four names or unknown, and each name reads back as its type |
| Domain.FindCategory | src/pages/Dashboard.tsx:54 | `categories.find(c => c.id === id)` returns the first listed category with that id, or none exactly when no listed category has it |
| Domain.FindCategoryByName | src/pages/Dashboard.tsx:60 | the lookup by name returns the first listed category with that name (names may repeat), or none exactly when none has it |
| Domain.InDateRangeSpec | src/pages/Dashboard.tsx:20-23 | `monthExpenses` is an order-preserving subsequence holding exactly the expenses with start ≤ date ≤ end |
| Domain.DisjointMonths | src/components/reports/MonthlyInsights.tsx:28-36 | when the previous month ends before the current one starts, no expense is in both month lists |
| Domain.FilteredTotalBounds | src/pages/Dashboard.tsx:35-41 | with positive amounts, any filtered sublist totals between 0 and the whole list's total |
| Domain.TotalOfPositive | src/pages/Dashboard.tsx:30-33 | a non-empty list of positive amounts has a positive total |
| Domain.TotalBoundsEach | src/pages/Dashboard.tsx:30-33 | with positive amounts, each expense is at most the total |
| Ledger.CalculateOwed | src/lib/utils.ts:29-63 | the payer is owed the amount minus the designated share, anyone else owes that share, and an unknown split counts 0 |
| Ledger.SplitTable | src/lib/utils.ts:38-62 | the per-type table for payer and non-payer: 50/50 gives ±amount/2; solo_yo gives 0 and -amount; solo_pareja gives amount and 0; custom gives amount-amount·p/100 and -amount·p/100; unknown gives 0 and 0 |
| Ledger.CustomPayerBounds | src/lib/utils.ts:52-59 | for 0 ≤ p ≤ 100 and a non-negative amount, the payer's custom share lies in [0, amount] |
| Ledger.ViewsCancelIff | src/lib/utils.ts:38-62 | the payer's and the other member's views cancel exactly when the split is unknown or the designated share is half |
| Ledger.ViewsCancelOnlyForEvenSplits | src/lib/utils.ts:38-62 | for a positive amount the views cancel exactly for 50/50, custom at 50 %, or an unknown type (so never for solo_yo or solo_pareja) |
| Ledger.CustomViewsCancel | src/lib/utils.ts:52-59 | a custom split cancels between the two views exactly at 50 % |
| Ledger.CalculateBalance | src/lib/utils.ts:65-85 | the two loops compute the sum of `calculateOwed` over the expenses plus each settlement's adjustment |
| Ledger.BalanceOrderIndependent | src/lib/utils.ts:70-82 | the balance depends only on the multisets of expenses and settlements, not their order |
| Ledger.PrependSettlement | src/lib/utils.ts:76-82 | a new settlement paid by the viewer lowers the balance by its amount, and any other settlement raises it (including one between two other people or a self-settlement by someone else) |
| Ledger.PrependExpense | src/lib/utils.ts:72-74 | a prepended expense adds exactly its `calculateOwed` to the balance |
| Ledger.CorrectedSettlementMoves | src/lib/utils.ts:76-82 | under the intended rule a payment by the viewer raises the viewer's balance, one to the viewer lowers it, and a self-settlement or one between others changes nothing |
| Ledger.CnWords | src/lib/utils.ts:91-93 | `cn` keeps exactly the truthy entries in order, joined by single spaces; with none it is empty |
| Store.UpdateById | src/store/useStore.ts:50-55 | `map`: same length and order; exactly the entries with the id are overwritten field by field from the patch |
| Store.UpdateAbsentOrEmpty | src/store/useStore.ts:50-55 | updating an absent id, or with an empty patch, changes nothing |
| Store.UpdateKeepsIds | src/store/useStore.ts:50-55 | a patch without an id keeps every entry's id |
| Store.UpdateIdempotent | src/store/useStore.ts:50-55 | applying the same update twice is the same as once |
| Store.RemoveById | src/store/useStore.ts:56-59 | what remains holds no entry with the id and every other entry of the list |
| Store.RemoveByIdSpec | src/store/useStore.ts:56-59 | removal keeps the rest as an order-preserving subsequence, and an absent id is a no-op |
| Store.RemoveAfterPrepend | src/store/useStore.ts:48-59 | adding an expense with a fresh id and removing it restores the list |
| Store.AppStore.constructor | src/store/useStore.ts:37-71 | the store starts with no user or partner, empty lists, COP and light mode |
| Store.AppStore.Rehydrate | src/store/useStore.ts:73-84 | restoring a saved snapshot makes `partialize` return it |
| Store.AppStore.SetUser | src/store/useStore.ts:40 | replaces the user and nothing else of the snapshot |
| Store.AppStore.SetPartner | src/store/useStore.ts:41 | replaces the partner and nothing else |
| Store.AppStore.SetCategories | src/store/useStore.ts:44 | replaces the categories and nothing else |
| Store.AppStore.SetExpenses | src/store/useStore.ts:47 | replaces the expenses and nothing else |
| Store.AppStore.AddExpense | src/store/useStore.ts:48-49 | puts the expense at index 0 with the old list after it, nothing else changes |
| Store.AppStore.UpdateExpense | src/store/useStore.ts:50-55 | the expenses become `UpdateById` of the old list, nothing else changes |
| Store.AppStore.RemoveExpense | src/store/useStore.ts:56-59 | the expenses become `RemoveById` of the old list, nothing else changes |
| Store.AppStore.SetSettlements | src/store/useStore.ts:62 | replaces the settlements and nothing else |
| Store.AppStore.AddSettlement | src/store/useStore.ts:63-66 | prepends the settlement and leaves the rest of the snapshot unchanged |
| Store.AppStore.SetCurrency | src/store/useStore.ts:69 | replaces the currency and nothing else |
| Store.AppStore.ToggleDarkMode | src/store/useStore.ts:71 | flips dark mode and nothing else, so two toggles restore the snapshot |
| OfflineQueue.Decode | src/lib/offline-queue.ts:11-18 | nothing stored, an empty text, or text that does not parse reads as the empty queue; text that parses reads as the queue it denotes |
| OfflineQueue.Dequeued | src/lib/offline-queue.ts:30-33 | the result holds no action with the id and keeps every other action |
| OfflineQueue.DequeueAfterEnqueue | src/lib/offline-queue.ts:20-33 | appending an action with a fresh id and then removing that id restores the previous queue |
| OfflineQueue.DequeueSpec | src/lib/offline-queue.ts:30-33 | removal keeps the rest in order and is idempotent |
| OfflineQueue.QueueStore.constructor | src/lib/offline-queue.ts:9-13 | the queue starts over the given storage and codec |
| OfflineQueue.QueueStore.GetQueue | src/lib/offline-queue.ts:11-18 | returns `[]` when the key is absent or its text does not parse, and the decoded stored queue otherwise |
| OfflineQueue.QueueStore.AddToQueue | src/lib/offline-queue.ts:20-28 | the stored queue gains the action, with the given id and timestamp, at its end; no other storage key changes |
| OfflineQueue.QueueStore.RemoveFromQueue | src/lib/offline-queue.ts:30-33 | the stored queue loses every action with the id; no other storage key changes |
| OfflineQueue.QueueStore.ClearQueue | src/lib/offline-queue.ts:35-37 | the key is removed, so the queue reads as empty and nothing else changes |
| ExpenseActions.BuildExpenseSpec | src/hooks/useExpenses.ts:63-71 | the built expense has the fresh id, `created_by` = the user, the user's household, the given data, percentage 50 when absent, and no empty description or receipt |
| ExpenseActions.FailedInsertRollsBack | src/hooks/useExpenses.ts:74-81 | after a failed insert the optimistic expense is gone and the list is as before; after a success it stays at the front |
| ExpenseActions.CreateExpense | src/hooks/useExpenses.ts:51-88 | without a household nothing changes; otherwise the expense is prepended, a failed insert removes it and queues exactly one insert action, and a successful refetch replaces the list |
| ExpenseActions.EditExpense | src/hooks/useExpenses.ts:90-102 | the patch is merged before the call, and only a failed call refetches |
| ExpenseActions.DeleteExpense | src/hooks/useExpenses.ts:104-113 | the expense is removed before the call, and only a failed call refetches |
| CatTotals.BumpKeys | src/components/reports/MonthlyInsights.tsx:83-89 | one loop step keeps category ids unique, records the resolved category and adds the expense's id |
| CatTotals.BumpValues | src/components/reports/MonthlyInsights.tsx:83-89 | one loop step adds the amount to its own category's current (or previous) total only |
| CatTotals.AccumulateKeys | src/components/reports/MonthlyInsights.tsx:83-96 | a loop's keys are the starting keys plus the categories of its expenses, unique |
| CatTotals.AccumulateValues | src/components/reports/MonthlyInsights.tsx:83-96 | a loop adds each category's spend in its expenses to that category's total |
| CatTotals.CategoryTotalsSpec | src/components/reports/MonthlyInsights.tsx:82-96 | `catTotals` has one entry per category seen in either month, each with that category's current and previous spend and its resolved category |
| CatTotals.CategoryTotalsOrder | src/components/reports/MonthlyInsights.tsx:82-96 | the entries stand in order of first appearance: the current month's categories, then the previous month's new ones, which decides ties after the stable sort |
| CatTotals.AccumulateLoop | src/components/reports/MonthlyInsights.tsx:83-89 | the `for` loop computes the specified fold |
| CatTotals.AccumulateTotals | src/components/reports/MonthlyInsights.tsx:82-96 | the two loops compute the specified category totals |
| Breakdown.GroupNameSpec | src/pages/Dashboard.tsx:54-55 | an expense is grouped under its category's name, or "Otros" when the category is unknown or unnamed |
| Breakdown.ToSlice | src/pages/Dashboard.tsx:59-61 | a slice keeps the group's name and value |
| Breakdown.ToSliceLooks | src/pages/Dashboard.tsx:60-61 | colour and icon come from a category of that name, or the grey default and the box icon when there is none |
| Breakdown.GroupTotalsKeys | src/pages/Dashboard.tsx:52-57 | the map has one key per distinct group name of the month |
| Breakdown.GroupTotalsValue | src/pages/Dashboard.tsx:52-57 | each group's value is the total of the expenses in it |
| Breakdown.GroupTotalsSum | src/pages/Dashboard.tsx:52-57 | the group values add up to the month's total |
| Breakdown.CategoryBreakdownShape | src/pages/Dashboard.tsx:51-64 | `chartData` is sorted by value non-increasing, has unique names, and sums to `totalMonth` |
| Breakdown.CategoryBreakdownValues | src/pages/Dashboard.tsx:51-64 | every slice is a group of the month with that group's spending |
| Breakdown.CategoryBreakdownCovers | src/pages/Dashboard.tsx:51-64 | every group of the month has a slice |
| Breakdown.ChartData | src/pages/Dashboard.tsx:51-64 | the `Map`-filling loop computes the specified breakdown |
| Dashboard.PayerTotalsSplitMonth | src/pages/Dashboard.tsx:35-49 | when every expense was paid by one of the two members, `myTotal + partnerTotal = totalMonth` |
| Dashboard.SettleParties | src/pages/Dashboard.tsx:66-83 | no request for a zero or non-numeric amount or without a user; otherwise the partner pays when the balance is positive, the user pays when it is not, and with no partner the user pays themself |
| Dashboard.SettlePartiesInvolveUser | src/pages/Dashboard.tsx:73-83 | the user is always a party, and with a distinct partner the two parties differ |
| Dashboard.ConfirmedRequestPositive | src/pages/Dashboard.tsx:310 | through an enabled confirm button, a numeric amount always yields a request with a positive amount |
| Dashboard.SettleAllTextReadsBack | src/pages/Dashboard.tsx:282 | for a whole non-zero balance, "Saldar todo" fills in a text that parses to its absolute value and enables confirm |
| Dashboard.SettleAllDoublesBalance | src/pages/Dashboard.tsx:75-78 | as written, settling the whole shown balance doubles it instead of clearing it |
| Dashboard.SettleAllCounterexample | src/pages/Dashboard.tsx:75-76 | one 50/50 expense of 100 paid by the user: balance 50, the partner pays 50, balance 100 |
| Dashboard.SettleAllClearsCorrectedBalance | src/pages/Dashboard.tsx:73-83 | under the intended settlement rule, settling the whole balance clears it whichever member owes |
| Dashboard.SettleDialog.constructor | src/pages/Dashboard.tsx:12-15 | the dialog starts closed, with no amount, no error, not saving |
| Dashboard.SettleDialog.Open | src/pages/Dashboard.tsx:138 | the settle button opens the dialog and changes nothing else |
| Dashboard.SettleDialog.FillAll | src/pages/Dashboard.tsx:282 | "Saldar todo" sets the amount to `String(abs(balance))` |
| Dashboard.SettleDialog.Type | src/pages/Dashboard.tsx:295 | typing replaces the amount text only |
| Dashboard.SettleDialog.Cancel | src/pages/Dashboard.tsx:303 | cancel closes the dialog and clears amount and error |
| Dashboard.SettleDialog.Dismiss | src/pages/Dashboard.tsx:259 | a tap on the overlay closes the dialog but keeps the typed amount and the error, unlike Cancel |
| Dashboard.SettleDialog.Settle | src/pages/Dashboard.tsx:66-91 | a refused request changes nothing; otherwise, with a household, the settlement is prepended (a failed insert refetches); a throw keeps the dialog open with its message, and anything else closes and clears it |
| Reports.PercentOfPart | src/pages/Reports.tsx:166 | the percentage of a part of a positive whole is a whole number from 0 to 100 |
| Reports.ShareLabelBounds | src/pages/Reports.tsx:166 | with positive amounts each category's share label is defined and between 0 % and 100 % |
| Reports.MonthlyComparison | src/pages/Reports.tsx:50-70 | six entries, oldest first, the last one the current month, each with the month's total and the two payers' sums |
| Reports.SummaryPartsStack | src/pages/Reports.tsx:56-66 | when all expenses were paid by the two members, mine + partner = total in each month |
| Reports.CsvHeaderColumns | src/pages/Reports.tsx:75 | the header splits at commas into its six column names and has no line break |
| Reports.CsvColumnsClean | src/pages/Reports.tsx:75 | no column name holds a comma or a line break |
| Reports.CsvLines | src/pages/Reports.tsx:74-82 | the export splits at line breaks into the header and then the rows, with no trailing newline; an empty month gives the header and its newline |
| Reports.CsvRowColumns | src/pages/Reports.tsx:79-80 | without commas in the copied texts a row splits into date, quoted description or category name, category name, amount, "Yo" or the partner's name or "Pareja", split type |
| Reports.CsvFieldsClean | src/pages/Reports.tsx:79-80 | under the same condition no field of a row holds a comma |
| ExpensesPage.FilteredSpec | src/pages/Expenses.tsx:22-29 | the list is an order-preserving subsequence holding exactly the month's expenses whose category and payer match the non-empty filters |
| ExpensesPage.FilteredIsMonthSelection | src/pages/Expenses.tsx:23-28 | the list is the month filter followed by the category and payer filters |
| ExpensesPage.NoFiltersIsMonth | src/pages/Expenses.tsx:25-26 | empty filters impose nothing: the list is the month |
| ExpensesPage.CategoryFilterTotal | src/pages/Expenses.tsx:31-34 | filtering by a category alone totals that category's spend in the month |
| ExpensesPage.PayerFilterTotal | src/pages/Expenses.tsx:31-34 | filtering by a payer alone totals what that payer paid in the month |
| ExpensesPage.TotalFilteredBounds | src/pages/Expenses.tsx:31-34 | with positive amounts the shown total lies between 0 and the month's total |
| ExpenseModal.DeleteLast | src/components/expenses/ExpenseModal.tsx:34-35 | 'del' drops exactly the last character and leaves an empty amount empty |
| ExpenseModal.DeleteUndoesKey | src/components/expenses/ExpenseModal.tsx:33-43 | an accepted one-character key followed by 'del' restores the amount |
| ExpenseModal.KeypadKeepsDigits | src/components/expenses/ExpenseModal.tsx:169 | the twelve keypad keys keep the amount a digit string |
| ExpenseModal.AtMostOneDot | src/components/expenses/ExpenseModal.tsx:36-37 | a '.' is refused once present, so the amount never has two points |
| ExpenseModal.AmountValueOfDigits | src/components/expenses/ExpenseModal.tsx:31 | `parseFloat(amount) \|\| 0` of a digit string is the number it denotes, 0 when empty |
| ExpenseModal.DigitKeyValue | src/components/expenses/ExpenseModal.tsx:38-42 | a digit key multiplies the amount by ten and adds the digit; '000' multiplies it by a thousand |
| ExpenseModal.SliderLabels | src/components/expenses/ExpenseModal.tsx:350-351 | the labels are p and 100 - p, both within 0..100 for a slider value |
| ExpenseModal.ExpenseForm.constructor | src/components/expenses/ExpenseModal.tsx:19-29 | the sheet opens on the amount step, empty, paid by the user, split 50/50 at 50 % |
| ExpenseModal.ExpenseForm.PressKey | src/components/expenses/ExpenseModal.tsx:33-43 | the amount is edited by one key as `handleNumpad` says, keypad keys keep it digits, nothing else changes |
| ExpenseModal.ExpenseForm.Next | src/components/expenses/ExpenseModal.tsx:45-48 | the step moves to the details exactly when the amount is positive |
| ExpenseModal.ExpenseForm.Back | src/components/expenses/ExpenseModal.tsx:133 | back returns to the amount step |
| ExpenseModal.ExpenseForm.SelectCategory | src/components/expenses/ExpenseModal.tsx:267 | picks the category |
| ExpenseModal.ExpenseForm.SelectPayer | src/components/expenses/ExpenseModal.tsx:289-300 | picks the payer |
| ExpenseModal.ExpenseForm.SelectSplit | src/components/expenses/ExpenseModal.tsx:327 | picks the split type |
| ExpenseModal.ExpenseForm.SlidePercentage | src/components/expenses/ExpenseModal.tsx:341-346 | the range input sets the percentage within 0..100 |
| ExpenseModal.ExpenseForm.TypeDescription | src/components/expenses/ExpenseModal.tsx:363 | sets the description |
| ExpenseModal.ExpenseForm.AttachReceipt | src/components/expenses/ExpenseModal.tsx:50-54 | selecting a file attaches a receipt; nothing else in the form changes |
| ExpenseModal.ExpenseForm.RemoveReceipt | src/components/expenses/ExpenseModal.tsx:126 | the preview's remove button detaches the file, so a later save sends no receipt; nothing else changes |
| ExpenseModal.ExpenseForm.Save | src/components/expenses/ExpenseModal.tsx:57-83 | refused (amount ≤ 0, no category, or saving) it sends nothing; otherwise it sends the request, whose receipt is the upload's result (`uploadReceipt` catches its own errors, so only `createExpense` can throw), stays busy and saved on success, and is usable again on a throw |
| ExpenseModal.RequestReceipt | src/components/expenses/ExpenseModal.tsx:62-65 | the request carries a receipt exactly when a file is attached and its upload returned a non-empty address; a failed upload still sends the expense without one |
| ExpenseModal.SavedExpenseSpec | src/components/expenses/ExpenseModal.tsx:67-76 | the stored expense has a positive amount, the chosen category, payer and split, the slider's percentage only for custom (50 otherwise), and a description only when typed |
| ExpenseCard.Snap | src/components/expenses/ExpenseCard.tsx:34-38 | the card snaps fully open exactly when released past -60, closed otherwise |
| ExpenseCard.SnapSettles | src/components/expenses/ExpenseCard.tsx:32-39 | a snapped card does not move when released again |
| ExpenseCard.DragThenRelease | src/components/expenses/ExpenseCard.tsx:26-39 | a drag released at once leaves the card open exactly when the finger went more than 60 left |
| ExpenseCard.SwipeCard.constructor | src/components/expenses/ExpenseCard.tsx:14-16 | the card starts closed with no active touch |
| ExpenseCard.SwipeCard.TouchStart | src/components/expenses/ExpenseCard.tsx:21-24 | the touch starts at x and becomes active |
| ExpenseCard.SwipeCard.TouchMove | src/components/expenses/ExpenseCard.tsx:26-30 | ignored without an active touch; otherwise the offset is the clamped drag, which stays in [-120, 0] |
| ExpenseCard.SwipeCard.TouchEnd | src/components/expenses/ExpenseCard.tsx:32-39 | the touch ends and the card snaps to -120 or 0 |
| ExpenseCard.SplitLabelOfType | src/components/expenses/ExpenseCard.tsx:41-49 | fixed labels for the fixed splits, and an unknown type is shown as stored |
| ExpenseCard.CustomLabelReadsBack | src/components/expenses/ExpenseCard.tsx:46 | a custom label of a whole percentage splits at its slash into two parts that parse to p and 100 - p |
| ExpenseCard.CardTitle | src/components/expenses/ExpenseCard.tsx:88 | the title is never empty and is the description whenever one is set |
| ExpenseCard.PayerBadgeSign | src/components/expenses/ExpenseCard.tsx:93 | "Yo pagué" exactly when the user paid; then the expense never lowers the user's balance, and "Pagó pareja" never raises it |
| Reminder.ReminderTable | src/components/dashboard/ExpenseReminder.tsx:13-63 | exactly one outcome: start for no expenses, the warning from 3 idle days, the gentle one from 1, month-end on the last two days, otherwise none |
| Reminder.SilenceTitleCount | src/components/dashboard/ExpenseReminder.tsx:34 | the warning's title starts with the day count |
| Reminder.OnlyLatestCounts | src/components/dashboard/ExpenseReminder.tsx:23-26 | only the first expense of the list decides the reminder |
| Budgets.MonthKey | src/hooks/useBudgets.ts:29 | the start-of-month key keeps the year and month and is day 01 |
| Budgets.MonthKeyIff | src/hooks/useBudgets.ts:40 | two dates get the same key exactly when they share year and month, and the key of a key is itself |
| Budgets.BudgetsForMonthSpec | src/hooks/useBudgets.ts:28-35 | a month's budgets are, in order, exactly those stored under its key; with none the total is 0 |
| Budgets.SameMonthSameBudgets | src/hooks/useBudgets.ts:28-35 | any two dates of a month select the same budgets and total |
| Budgets.NewBudget | src/hooks/useBudgets.ts:37-49 | a record exists exactly when the user has a household |
| Budgets.NewBudgetSelected | src/hooks/useBudgets.ts:40-49 | a budget set for any date is selected by every date of that month, with its category, amount and household |
| Budgets.CopyBudgets | src/hooks/useBudgets.ts:84-89 | one record per source-month budget, in order, for the target month; none without a household |
| Budgets.CopiedBudgetsMatch | src/hooks/useBudgets.ts:84-89 | the copies all land in the target month, category by category as in the source, with the same total |
| BudgetModal.FindBudget | src/components/reports/BudgetModal.tsx:26 | finds the first month budget of the category in list order, or none exactly when none exists |
| BudgetModal.SaveRequestsSpec | src/components/reports/BudgetModal.tsx:37-42 | `setBudget` is called for a category with v exactly when its field parses to v > 0, and in category order |
| BudgetModal.SanitiseSpec | src/components/reports/BudgetModal.tsx:107-109 | a typed field holds only digits and typing the same text again changes nothing |
| BudgetModal.TotalAfterPut | src/components/reports/BudgetModal.tsx:32 | changing a field moves the total by the new value minus the old one |
| BudgetModal.OverlayKeeps | src/components/reports/BudgetModal.tsx:51-54 | copying keeps keys unique and leaves every key not written unchanged |
| BudgetModal.OverlayWrites | src/components/reports/BudgetModal.tsx:52-54 | the last write to a key wins |
| BudgetModal.CopyPreviousSpec | src/components/reports/BudgetModal.tsx:49-56 | copy-previous writes each previous budget's amount under its category (the later one winning) and keeps all other keys |
| BudgetModal.InitialFieldsSpec | src/components/reports/BudgetModal.tsx:23-30 | one field per category: the existing budget's amount as text, or empty |
| BudgetModal.NonZeroTotalField | src/components/reports/BudgetModal.tsx:32 | a non-zero total has a field with a non-zero value |
| BudgetModal.EnabledSaveSends | src/components/reports/BudgetModal.tsx:141 | when save is enabled by a non-zero total of digit fields, at least one `setBudget` is sent |
| BudgetModal.BudgetSheet.constructor | src/components/reports/BudgetModal.tsx:20-21 | the sheet starts empty, not saving |
| BudgetModal.BudgetSheet.Fill | src/components/reports/BudgetModal.tsx:23-30 | the loop fills one field per category with its initial value |
| BudgetModal.BudgetSheet.Type | src/components/reports/BudgetModal.tsx:107-109 | typing stores the digits of the text under the category |
| BudgetModal.BudgetSheet.CopyPrevious | src/components/reports/BudgetModal.tsx:49-56 | the loop overlays the previous month's amounts, a no-op without them |
| BudgetModal.BudgetSheet.Save | src/components/reports/BudgetModal.tsx:34-47 | the loop sends the specified calls in category order and closes; a throwing call ends the loop, so the calls are that prefix up to and including it, and the sheet is usable again |
| Insights.MonthComparison | src/components/reports/MonthlyInsights.tsx:53-79 | only with a positive previous total: warning above +20 %, success below -10 %, steady otherwise, by the rounded change |
| Insights.TopSection | src/components/reports/MonthlyInsights.tsx:99-114 | at most one entry, present exactly when the top category resolves, a warning exactly above 40 % |
| Insights.TopCategoryIsLargest | src/components/reports/MonthlyInsights.tsx:82-114 | the top category has the largest current spend of the month, its share is its rounded percentage, and it is the listed category |
| Insights.FirstRising | src/components/reports/MonthlyInsights.tsx:117-127 | the position the loop stops at: the first entry with prev > 0, current > 1.5·prev and a known category |
| Insights.RisingSection | src/components/reports/MonthlyInsights.tsx:117-127 | at most one warning, present exactly when some entry is rising, and about the first one |
| Insights.ImbalanceSection | src/components/reports/MonthlyInsights.tsx:130-145 | a tip exactly when both paid and the rounded ratio is above 70 or below 30; the ratio is within 0..100 |
| Insights.TotalBudget | src/components/reports/MonthlyInsights.tsx:155-157 | no budgets total 0 |
| Insights.Pacing | src/components/reports/MonthlyInsights.tsx:161-185 | exactly one of exceeded (used > 100), high pace (used > expected + 10) or on pace |
| Insights.ProjectionVsBudget | src/components/reports/MonthlyInsights.tsx:188-203 | a warning exactly when the projection exceeds the budget, with the least whole daily reduction that covers the excess |
| Insights.CeilCovers | src/components/reports/MonthlyInsights.tsx:189 | the rounded-up daily reduction covers the excess and one less does not |
| Insights.DailyReductionDivisor | src/components/reports/MonthlyInsights.tsx:159 | before day 25 the days left in the month are at least 4, so the divisor is positive |
| Insights.OverageTail | src/components/reports/MonthlyInsights.tsx:208-220 | a budget gives a warning exactly when its category resolves and its spend exceeds it |
| Insights.OveragesSpec | src/components/reports/MonthlyInsights.tsx:206-222 | one warning per overspent budget, in budget order |
| Insights.OveragesRanked | src/components/reports/MonthlyInsights.tsx:206-222 | the overages all sit in the overage slot of the order |
| Insights.BudgetSection | src/components/reports/MonthlyInsights.tsx:155-230 | with a positive budget in the running month before day 25: pacing, then projection, then the overages; with none: one plain projection; otherwise nothing |
| Insights.BudgetSectionRanked | src/components/reports/MonthlyInsights.tsx:159-230 | the budget block is ordered pacing → projection → overages |
| Insights.WeekendSection | src/components/reports/MonthlyInsights.tsx:233-246 | a tip exactly when the rounded weekend share is above 50 % |
| Insights.VolumeSection | src/components/reports/MonthlyInsights.tsx:249-256 | a tip exactly when there are more than 50 expenses in the month |
| Insights.MonthTotalPositive | src/components/reports/MonthlyInsights.tsx:40 | a non-empty month of positive amounts has a positive total, so the share divisions are defined |
| Insights.MonthInsightsWellOrdered | src/components/reports/MonthlyInsights.tsx:52-258 | sections appear in the fixed order comparison → top → rising → imbalance → budget/projection → weekend → volume, at most one of each apart from the overages |
| Insights.AnalyzeWellOrdered | src/components/reports/MonthlyInsights.tsx:38-259 | the whole insight list is in that order |
| Insights.AnalyzeNoData | src/components/reports/MonthlyInsights.tsx:43-50 | the list is the single "Sin datos este mes" info exactly when the month is empty, and it never appears otherwise |
| Insights.NoBudgetsNoBudgetInsights | src/components/reports/MonthlyInsights.tsx:155-230 | when no budgets are passed, as from the reports page, no pacing, overage or budget projection appears |
| Insights.ProjectionIsMonthTotal | src/components/reports/MonthlyInsights.tsx:148-150 | as written, when the end day is read correctly the projection equals the month's total so far |
| Insights.ProjectionCounterexample | src/components/reports/MonthlyInsights.tsx:148-150 | 300 spent by day 10 of a 30-day month projects 300 as written and 900 as intended |
| Insights.IntendedProjectionExtrapolates | src/components/reports/MonthlyInsights.tsx:148-150 | the intended projection adds the daily average of the days so far for each remaining day, and exceeds a positive total before the month ends |
| InsightsBuilder.BuildInsights | src/components/reports/MonthlyInsights.tsx:38-259 | the imperative builder computes exactly the specified list |
| InsightsBuilder.BuildMonth | src/components/reports/MonthlyInsights.tsx:52-258 | the push sequence for a non-empty month computes the specified sections |
| InsightsBuilder.MonthInsightsUnfold | src/components/reports/MonthlyInsights.tsx:52-258 | the month's list is the concatenation of its seven sections in order |
| InsightsBuilder.PushMonthComparison | src/components/reports/MonthlyInsights.tsx:53-79 | pushes the comparison section |
| InsightsBuilder.PushTop | src/components/reports/MonthlyInsights.tsx:99-114 | pushes the top-category section |
| InsightsBuilder.PushRising | src/components/reports/MonthlyInsights.tsx:117-127 | the loop with `break` pushes the rising section |
| InsightsBuilder.PushImbalance | src/components/reports/MonthlyInsights.tsx:130-145 | pushes the imbalance section |
| InsightsBuilder.PushPacingAndProjection | src/components/reports/MonthlyInsights.tsx:155-230 | pushes the budget block |
| InsightsBuilder.PushBudgetBlock | src/components/reports/MonthlyInsights.tsx:159-223 | the budget branch pushes exactly the pacing insight, then the projection insight, then the overages |
| InsightsBuilder.PushPacing | src/components/reports/MonthlyInsights.tsx:161-185 | pushes the one pacing insight |
| InsightsBuilder.PushProjection | src/components/reports/MonthlyInsights.tsx:188-203 | pushes the one projection insight |
| InsightsBuilder.PushOverages | src/components/reports/MonthlyInsights.tsx:206-222 | the budget loop pushes the overages |
| InsightsBuilder.PushHabits | src/components/reports/MonthlyInsights.tsx:233-256 | pushes the weekend and volume sections |

## Left out

- Backend I/O is not modelled: the queries, inserts, upserts and realtime channels, and the `loadExpenses` / `loadBudgets` / `loadSettlements` refetches. Each call's outcome, and what a refetch returns, is a parameter.
- `src/hooks/useAuth.ts` is not part of this model: session loading, profile creation and partner linking are remote plumbing.
- `src/hooks/useReceipts.ts` is not part of this model. The receipt upload is storage I/O; its result enters the expense sheet as the `receiptUrl` parameter.
- `src/hooks/useSettlements.ts` is modelled only as far as `createSettlement` goes: the record built, the optimistic prepend and the refetch after an error. Its `loadSettlements` is a parameter.
- Library formatting is left out: `formatCurrency` (Intl), `formatDate`, `formatMonthYear`, `getMonthRange` and the date-fns month arithmetic. Month bounds and month names are inputs; money in insight titles is a function parameter.
- Time-zone-dependent dates are inputs: `new Date(end).getDate()`, `getDay()`, `differenceInDays` and "today".
- Randomness and the clock are parameters: `crypto.randomUUID`, `Date.now` and `new Date().toISOString()`. `generateInviteCode` is not modelled.
- IEEE floating point is not modelled. Amounts and percentages are mathematical reals, and `NaN` appears only as the `None` of `parseFloat`.
- Zustand's `persist` and `localStorage` mechanics are not modelled. The persisted state is the `partialize` snapshot. The offline queue's storage is a key→text map, and its JSON is an abstract codec.
- OfflineQueue.QueueStore.AddToQueue: requires the codec to read back the one queue it is about to write (`RoundTrips`), not a codec law over all queues; `JSON` round-trips an `Expense` whose amounts are finite doubles, but the model's amounts are reals, so no injective law is assumed. The same holds for RemoveFromQueue and for ExpenseActions.CreateExpense, which carries the requirement up. A queued action's `data` is an `Expense`, the only thing the app ever queues.
- The budget store is missing: `src/store/useStore.ts` defines no `budgets` list, no `setBudgets`, and none of the actions `upsertBudget` and `removeBudget` that `useBudgets.ts` uses. As written, `useBudgets.ts:30` reads `undefined` and `getBudgetsForMonth` throws on its first call. The model gives Budgets a supplied list instead, the behaviour evidently intended rather than the one written. `setBudget` is modelled as the record it builds; `deleteBudget` is not modelled. No other modelled file opens the budget sheet, so BudgetModal is modelled on its own.
- Text.ParseFloat: reads an optional sign, digits and one fraction; it does not skip leading whitespace and reads no exponent. The settle field is a number input that accepts `1e3`, which `parseFloat` reads as 1000 and the model as 1, so Dashboard.SettleParties does not cover exponent input.
- There is no edit flow in the expense sheet: the page passes an expense the sheet does not accept.
- Pure UI is out: rendering, charts, icons, timers (the 800 ms close), the clipboard, the CSV blob and download, and the onboarding, auth, settings, app and layout files.
- ExpenseCard.SwipeCard.TouchEnd: reads the offset as stored. The React handler reads the offset of the last render, which the model does not distinguish.
- ExpenseCard.CustomLabelReadsBack: proved for whole percentages only. `String(x)` of a fraction is modelled with up to 20 decimals, and its read-back is not proved.
- Dashboard.SettleAllTextReadsBack: proved for whole balances only, for the same reason.
- Text.ShowNumberParses: proved for whole numbers only, for the same reason.
- Budgets.MonthKey: requires a date of at least 8 characters (`yyyy-MM-`). The source's dates are `Date` objects; the model takes their ISO text.
- Insights.AnalyzeWellOrdered: requires positive amounts. JavaScript would compute `NaN` or `Infinity` shares for a zero total, and the model does not follow that arithmetic. The same applies to InsightsBuilder.BuildInsights.
- Insights.OverageTail: the percentage of an overage against a zero budget is `Infinity` in JavaScript. It is modelled as no number, and the title prints "Infinity".

## Findings

| source | as written | input that shows it | evidently intended | confidence | as-written member | corrected member |
|---|---|---|---|---|---|---|
| src/lib/utils.ts:76-82 | a settlement paid by the viewer subtracts its amount and any other adds it, while the dialog makes the partner pay when the balance is positive (src/pages/Dashboard.tsx:75-76) | one 50/50 expense of 100 paid by the user: the balance is 50; settling it all records the partner paying 50, and the balance becomes 100 | paying moves the payer's balance up and the receiver's down, so settling the whole balance clears it | not executed | Dashboard.SettleAllDoublesBalance, Dashboard.SettleAllCounterexample | Dashboard.SettleAllClearsCorrectedBalance, Ledger.CorrectedSettlementMoves |
| src/components/reports/MonthlyInsights.tsx:148-150 | the average per day divides by the month's last day, so the projection equals the month's total so far | 300 spent by day 10 of a 30-day running month: the projection is 300 | divide by today's day, so the average of the days so far is carried to the month's end (900) | not executed | Insights.ProjectionIsMonthTotal, Insights.ProjectionCounterexample | Insights.IntendedProjectionExtrapolates |

The app shows the as-written values. For that reason the balance, the
settle dialog and the insight list are modelled as written. The corrected
rules, `Ledger.CorrectedBalance` and `Insights.IntendedProjection`, sit
beside them with their intended properties proved.
