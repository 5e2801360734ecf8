# Expense tracker core, modelled in Dafny

This project models the core of an expense tracker. The tracker has an
Express/MySQL back end and a React/Redux client.

On the back end, three analytics queries of the `Expense` model are covered:

- `getTopSpendingDays`: the three largest daily totals of each user.
- `getMonthlyChanges`: the change of each active month against the previous active month.
- `getSpendingPredictions`: the average of the last three active months, used as next month's prediction.

For each query the model has:

- the SQL statement's result, computed from the `expenses` and `users` tables;
- the JavaScript `reduce` fold that groups rows by user;
- the order in which `Object.values` returns the groups.

Also modelled on the back end:

- the pagination of `findAll`;
- the field whitelist of `update`;
- the error middleware and its 404 handler.

On the client side, the model covers:

- the Redux slices for expenses, statistics, UI state and toasts, as classes whose reducers are methods;
- the singleton that guards against duplicate API calls, and its guard keys;
- the user-status helpers;
- the filter panel's change handler;
- the amount field's decimal truncation and validation.

Conventions:

- Money is held in integer cents, and percentages in hundredths of a percent.
- MySQL's `ROUND(x, 2)` is a rounded integer quotient, half away from zero (`Decimal.RoundHalfAway`).
- `Math.ceil(a / b)` is `Decimal.CeilDiv`.
- JavaScript values appear as `JsValues.Value`, with JavaScript truthiness.
- Anything that may be `undefined` or `null` is an `Option`.
- A thrown error is the `Err` case of a `Result`.

Each query is a method that computes the rows and runs the fold. The method is proved equal to a declarative function, and the lemmas state what the function promises. The fold's accumulator object returns its keys in ascending order, because `Object.values` lists integer keys ascending (ECMA-262 section 10.1.11.1, OrdinaryOwnPropertyKeys). That is why each result has one entry per user, in ascending `user_id` order.

The state of each Redux slice is the fields of a class. Each reducer is a method that states the slice's whole new state.

An async thunk is modelled in one step, as a method:

- It takes the API response as a parameter.
- It reads the guard registry.
- It returns the busy value when the key is already held. Otherwise it returns the response.
- It leaves the registry as it found it.

## Model

| member | source | states |
|---|---|---|
| Decimal.RoundHalfAway | backend/models/Expense.js:309 | the rounded quotient is within half a unit of n/d, and an exact half rounds away from zero, as MySQL's ROUND does on DECIMAL |
| Decimal.RoundExact | backend/models/Expense.js:381-383 | rounding a whole quotient returns it unchanged |
| Decimal.CeilDiv | backend/models/Expense.js:107 | `Math.ceil(a / b)`: the least r with a <= r*b when b > 0 |
| JsValues.MessageOr | client/src/store/slices/expenseSlice.js:133 | `message \|\| fallback` is the message or the fallback; it is non-empty exactly when one of them is; a non-empty message wins, otherwise the fallback |
| ExpenseRows.UsersAscSpec | backend/models/Expense.js:226-228 | the users partitioned by the analytics queries are exactly the users with an expense that joins a `users` row, each once, ascending |
| ExpenseRows.DatesAscSpec | backend/models/Expense.js:220-229 | a user's daily groups are the user's distinct spending dates, each once, in date order |
| ExpenseRows.MonthsAscSpec | backend/models/Expense.js:277-287 | a user's monthly groups are the user's distinct active (year, month) pairs, each once, ascending |
| ExpenseRows.ExpenseUserIsActive | backend/models/Expense.js:226-228 | a user who survives the inner join has a `users` row, a spending date and an active month |
| Grouping.AscKeysSpec | backend/models/Expense.js:267 | the keys of the fold's accumulator are exactly the users seen, in ascending order, as Object.values enumerates them |
| Grouping.GroupByUser | backend/models/Expense.js:252-265 | the fold creates one entry per user seen, holding the first row's user_name and every row's payload of that user, in row order |
| Grouping.GroupValues | backend/models/Expense.js:252-267 | the fold followed by Object.values gives the groups in ascending user order |
| Grouping.ItemsByUser | backend/models/Expense.js:427-437 | the detail fold maps each user seen to that user's payloads, in row order, and maps no other key |
| Grouping.GroupsOfBlocks | backend/models/Expense.js:319-337 | folding a result ordered by user_id, one block per user, yields one group per non-empty block, holding that block's rows |
| Grouping.NonEmptyGroupsAll | backend/models/Expense.js:252-267 | when no user's block is empty, there is one group per user, in the order of the users |
| Grouping.NonEmptyGroupsMembers | backend/models/Expense.js:319-337 | every group belongs to a user with a non-empty block, and carries that user's name and rows |
| Grouping.NonEmptyGroupsComplete | backend/models/Expense.js:319-337 | every user with a non-empty block has a group |
| Grouping.NonEmptyGroupsAscending | backend/models/Expense.js:319-337 | the groups are in strictly ascending user order |
| TopSpendingDays.RankByTotalSpec | backend/models/Expense.js:236 | ranking orders a user's days by daily total, highest first, and is a permutation of them |
| TopSpendingDays.DayTotalsSpec | backend/models/Expense.js:220-229 | daily_spending has one row per spending date of the user, carrying the SUM of that date's amounts |
| TopSpendingDays.RankedSpec | backend/models/Expense.js:230-238 | the ranked days are exactly the user's daily totals, each once, in non-increasing order |
| TopSpendingDays.TopDaysOmitted | backend/models/Expense.js:236-245 | a date that `rank_num <= 3` drops has a total no larger than any listed date's |
| TopSpendingDays.TopDaysSpec | backend/models/Expense.js:220-246 | top_days has min(3, distinct dates) entries, each with its date's sum, in non-increasing order, with distinct dates, and no omitted date is larger |
| TopSpendingDays.GetTopSpendingDays | backend/models/Expense.js:217-267 | the query plus the fold returns the declarative TopSpendingDays result |
| TopSpendingDays.TopSpendingDaysSpec | backend/models/Expense.js:246-267 | one entry per joined user, ascending by user_id, carrying the user's name and top days; no expenses gives [] |
| MonthlyChanges.PercentageChange | backend/models/Expense.js:305-310 | with a non-zero previous total, the percentage is (cur - prev)/prev * 100 rounded to two decimals, an exact half rounded away from zero as ROUND does |
| MonthlyChanges.PercentageChangeFacts | backend/models/Expense.js:305-310 | unchanged gives 0, doubled gives 100.00, dropping to zero gives -100.00, and a zero previous total gives 100 or 0 |
| MonthlyChanges.ChangesShape | backend/models/Expense.js:295-313 | a user has one row fewer than active months, in strictly descending (year, month) order |
| MonthlyChanges.ChangeRow | backend/models/Expense.js:295-310 | each row is an active month with its total, and previous_month_total is the total of the nearest earlier active month, not the calendar-previous month |
| MonthlyChanges.ChangesRows | backend/models/Expense.js:288-313 | every row of a user's changes is an active month that has a LAG month, with the right totals and percentage |
| MonthlyChanges.ChangesComplete | backend/models/Expense.js:295-312 | an active month gets a row exactly when an earlier active month exists, so the earliest month never appears |
| MonthlyChanges.ChangesCompleteAt | backend/models/Expense.js:295-312 | for one active month: having an earlier active month is the same as having a row |
| MonthlyChanges.GetMonthlyChanges | backend/models/Expense.js:274-337 | the query plus the fold returns the declarative MonthlyChangesOf result |
| MonthlyChanges.MonthlyChangesSpec | backend/models/Expense.js:312-337 | exactly the joined users with at least two active months get an entry, holding their changes, in ascending user order |
| SpendingPredictions.UsersHaveMonths | backend/models/Expense.js:347-356 | every joined user has at least one active month |
| SpendingPredictions.AttachDetails | backend/models/Expense.js:439-447 | the `map` keeps the summary rows' order and gives each row its user's detail list, or [] when the detail fold has no entry for the user |
| SpendingPredictions.GetSpendingPredictions | backend/models/Expense.js:344-449 | both queries, the detail fold and the `\|\| []` lookup return the declarative Predictions result |
| SpendingPredictions.RecentMonthsSpec | backend/models/Expense.js:358-375 | month_rank <= 3 keeps min(3, active) months, latest first, and every dropped month is earlier than all kept ones |
| SpendingPredictions.PredictionSpec | backend/models/Expense.js:368-383 | months_count is min(3, active months), the detail rows are the recent months with their totals, the average is their sum over the count rounded to cents with a half cent rounded away from zero, and the prediction equals it |
| SpendingPredictions.PredictionsUsers | backend/models/Expense.js:378-385 | one prediction per joined user, ascending by user_id |
| ExpenseQueries.OrDefaultSpec | backend/models/Expense.js:29-30 | `parseInt(x) \|\| d` gives d for NaN and 0 and keeps any other number |
| ExpenseQueries.FindAllSpec | backend/models/Expense.js:18-112 | success exactly for a positive page and limit; the page holds the rows from offset (page-1)*limit on, min(limit, total - offset) of them, and none past the end; total counts all matching rows; pages = ceil(total/limit) |
| ExpenseQueries.PageOfRow | backend/models/Expense.js:63-64 | with a positive limit every matching row lies on exactly one page, numbered 1 to pages |
| ExpenseQueries.BuildUpdate | backend/models/Expense.js:167-200 | the statement built field by field, or the rewrapped error, is the declarative UpdateOf |
| ExpenseQueries.AssignmentsSpec | backend/models/Expense.js:178-190 | one `key = ?` per kept field, in order, and pushing a field extends the joined SET list by ", " and its assignment |
| ExpenseQueries.KeptConcat | backend/models/Expense.js:172-181 | the whitelist filter keeps the fields in their key order |
| ExpenseQueries.KeptMembers | backend/models/Expense.js:172-181 | exactly the fields named user_id, category_id, amount, date or description are kept |
| ExpenseQueries.UpdateSpec | backend/models/Expense.js:167-200 | "Failed to update expense: No valid fields to update" exactly when no key is whitelisted; otherwise the SQL is `UPDATE expenses SET` followed by one `key = ?` per kept field in input order, joined by ", ", then `WHERE id = ?`, with the kept values and then the id as parameters |
| ApiGuards.APIGuards.constructor | client/src/utils/apiGuards.js:1-3 | a new registry holds no guard |
| ApiGuards.APIGuards.StartCall | client/src/utils/apiGuards.js:18-20 | the key is in progress afterwards, and no other key changes |
| ApiGuards.APIGuards.CompleteCall | client/src/utils/apiGuards.js:23-25 | the key is no longer in progress, and no other key changes |
| ApiGuards.APIGuards.ClearAll | client/src/utils/apiGuards.js:28-30 | no key is in progress afterwards |
| ApiGuards.StartCallIdempotent | client/src/utils/apiGuards.js:18-20 | starting a call twice leaves the registry as starting it once does |
| ApiGuards.Registry.GetInstance | client/src/utils/apiGuards.js:5-10 | the first call creates an empty registry; later calls return the same one |
| ApiGuards.GetInstanceTwice | client/src/utils/apiGuards.js:5-10 | two calls return the same registry |
| ApiGuards.CreateGuardKey | client/src/utils/apiGuards.js:36-41 | the key starts with the kind |
| ApiGuards.GuardKeyInjective | client/src/utils/apiGuards.js:36-41 | for kinds without ":" and an injective JSON.stringify, equal keys come from equal kinds and parameters |
| ApiGuards.RunGuarded | client/src/store/slices/statisticsSlice.js:20-33 | a held key yields the busy outcome and a free key the response, and the registry ends as it started |
| ExpenseSlice.NormaliseSpec | client/src/store/slices/expenseSlice.js:100-111 | the new filters hold page and limit (1 and 10 unless given) and exactly the payload entries other than undefined, null and "", and normalising twice changes nothing |
| ExpenseSlice.BuildFilters | client/src/store/slices/expenseSlice.js:101-108 | the `forEach` over the payload's keys, starting from page 1 and limit 10, builds exactly the normalised filters, whatever order the keys are visited in |
| ExpenseSlice.FindIndex | client/src/store/slices/expenseSlice.js:163-165 | the index of the first expense with the id, or -1 when there is none |
| ExpenseSlice.RemoveId | client/src/store/slices/expenseSlice.js:172-174 | the kept expenses are exactly those whose id differs |
| ExpenseSlice.RemoveIdConcat | client/src/store/slices/expenseSlice.js:172-174 | the filter keeps the remaining expenses in order |
| ExpenseSlice.RemoveAbsentId | client/src/store/slices/expenseSlice.js:172-174 | deleting an id no expense has leaves the list as it is |
| ExpenseSlice.ExpenseStore.constructor | client/src/store/slices/expenseSlice.js:6-22 | the initial state |
| ExpenseSlice.ExpenseStore.SetFilters | client/src/store/slices/expenseSlice.js:100-111 | filters become the normalised payload; nothing else changes |
| ExpenseSlice.ExpenseStore.ClearFilters | client/src/store/slices/expenseSlice.js:112-114 | filters become page 1, limit 10; nothing else changes |
| ExpenseSlice.ExpenseStore.ClearError | client/src/store/slices/expenseSlice.js:115-117 | error becomes null; nothing else changes |
| ExpenseSlice.ExpenseStore.ListPending | client/src/store/slices/expenseSlice.js:122-125 | loading is set and error cleared, for fetchExpenses and createExpense alike |
| ExpenseSlice.ExpenseStore.FetchFulfilled | client/src/store/slices/expenseSlice.js:126-130 | the list and pagination come from the payload and loading ends |
| ExpenseSlice.ExpenseStore.ListRejected | client/src/store/slices/expenseSlice.js:131-134 | loading ends and error is the message or the case's default text |
| ExpenseSlice.ExpenseStore.DashboardPending | client/src/store/slices/expenseSlice.js:136-138 | only dashboardLoading is set |
| ExpenseSlice.ExpenseStore.DashboardFulfilled | client/src/store/slices/expenseSlice.js:139-142 | the dashboard list comes from the payload and dashboard loading ends |
| ExpenseSlice.ExpenseStore.DashboardRejected | client/src/store/slices/expenseSlice.js:143-147 | dashboard loading ends and error is the message or "Failed to fetch dashboard expenses" |
| ExpenseSlice.ExpenseStore.CreateFulfilled | client/src/store/slices/expenseSlice.js:153-156 | the created expense goes to the front and loading ends |
| ExpenseSlice.ExpenseStore.UpdateFulfilled | client/src/store/slices/expenseSlice.js:162-169 | the first expense with the id is replaced and the others stay; with no match the list is unchanged |
| ExpenseSlice.ExpenseStore.DeleteFulfilled | client/src/store/slices/expenseSlice.js:171-175 | every expense with the id is removed |
| ExpenseSlice.ExpenseStore.FetchExpenses | client/src/store/slices/expenseSlice.js:24-45 | a held guard key resolves to an empty list with the default pagination; otherwise the response is applied; the registry ends unchanged |
| ExpenseSlice.ExpenseStore.FetchDashboardExpenses | client/src/store/slices/expenseSlice.js:47-64 | a held guard key rejects with "API call already in progress"; otherwise the response is applied; the registry ends unchanged |
| ExpenseSlice.ClearedFiltersAreNormal | client/src/store/slices/expenseSlice.js:100-114 | the filters clearFilters stores are what setFilters({}) stores, and setFilters with them changes nothing |
| StatisticsSlice.GuardKeysDistinct | client/src/store/slices/statisticsSlice.js:20-59 | the three statistics thunks use three different guard keys, each the bare kind |
| StatisticsSlice.StatisticsStore.constructor | client/src/store/slices/statisticsSlice.js:5-15 | the initial state: empty lists, nothing loading, no error |
| StatisticsSlice.StatisticsStore.ClearError | client/src/store/slices/statisticsSlice.js:92-94 | error becomes null; nothing else changes |
| StatisticsSlice.StatisticsStore.Pending | client/src/store/slices/statisticsSlice.js:99-102 | only that kind's loading flag is set, and error is cleared |
| StatisticsSlice.StatisticsStore.Rejected | client/src/store/slices/statisticsSlice.js:107-111 | that kind's loading flag ends and error is the message or that kind's default text |
| StatisticsSlice.StatisticsStore.TopSpendingDaysFulfilled | client/src/store/slices/statisticsSlice.js:103-106 | the list comes from the payload and only its loading flag ends |
| StatisticsSlice.StatisticsStore.MonthlyChangesFulfilled | client/src/store/slices/statisticsSlice.js:117-120 | the list comes from the payload and only its loading flag ends |
| StatisticsSlice.StatisticsStore.SpendingPredictionsFulfilled | client/src/store/slices/statisticsSlice.js:130-133 | the list comes from the payload and only its loading flag ends |
| StatisticsSlice.StatisticsStore.FetchTopSpendingDays | client/src/store/slices/statisticsSlice.js:17-35 | a held key rejects with "API call already in progress", otherwise the response is applied; the guard is released |
| StatisticsSlice.StatisticsStore.FetchMonthlyChanges | client/src/store/slices/statisticsSlice.js:37-54 | a held key rejects with "API call already in progress", otherwise the response is applied; the guard is released |
| StatisticsSlice.StatisticsStore.FetchSpendingPredictions | client/src/store/slices/statisticsSlice.js:56-74 | a held key rejects with "API call already in progress", otherwise the response is applied; the guard is released |
| UiSlice.UiStore.constructor | client/src/store/slices/uiSlice.js:3-9 | the initial state, which satisfies both invariants (an open editor or delete target implies its panel is shown) |
| UiSlice.UiStore.SetShowExpenseForm | client/src/store/slices/uiSlice.js:15-20 | hiding the form clears the expense being edited; showing it keeps it; the delete fields and sidebar are untouched; invariants kept |
| UiSlice.UiStore.SetEditingExpense | client/src/store/slices/uiSlice.js:21-24 | the form is shown exactly when an expense id is being edited; invariants kept |
| UiSlice.UiStore.SetSidebarOpen | client/src/store/slices/uiSlice.js:25-27 | only sidebarOpen changes |
| UiSlice.UiStore.SetShowDeleteModal | client/src/store/slices/uiSlice.js:28-33 | hiding the modal clears the deletion target; the form fields are untouched; invariants kept |
| UiSlice.UiStore.SetDeletingExpense | client/src/store/slices/uiSlice.js:34-37 | the modal is shown exactly when an expense id is targeted; invariants kept |
| ToastSlice.DurationOr | client/src/store/slices/toastSlice.js:17 | a truthy duration is kept; a missing or zero duration becomes 5000; the result is never 0 |
| ToastSlice.RemoveToastId | client/src/store/slices/toastSlice.js:22-26 | the remaining toasts are exactly those whose id differs |
| ToastSlice.RemoveToastIdConcat | client/src/store/slices/toastSlice.js:22-26 | the remaining toasts keep their order |
| ToastSlice.AddThenRemove | client/src/store/slices/toastSlice.js:11-26 | removing a toast just added, whose id is new, restores the list |
| ToastSlice.RemoveToastIdAbsent | client/src/store/slices/toastSlice.js:22-26 | removing an unknown id changes nothing |
| ToastSlice.ToastQueue.constructor | client/src/store/slices/toastSlice.js:3-5 | no toasts |
| ToastSlice.ToastQueue.AddToast | client/src/store/slices/toastSlice.js:11-21 | exactly one toast is appended at the end; the others are unchanged |
| ToastSlice.ToastQueue.RemoveToast | client/src/store/slices/toastSlice.js:22-26 | every toast with the id goes and the rest keep their order |
| ToastSlice.ToastQueue.ClearAllToasts | client/src/store/slices/toastSlice.js:27-29 | the list is empty |
| ToastSlice.ToastQueue.ShowSuccessToast | client/src/store/slices/toastSlice.js:34-36 | adds a toast of type "success" |
| ToastSlice.ToastQueue.ShowErrorToast | client/src/store/slices/toastSlice.js:38-40 | adds a toast of type "error" |
| ToastSlice.ToastQueue.ShowInfoToast | client/src/store/slices/toastSlice.js:42-44 | adds a toast of type "info" |
| ToastSlice.ToastQueue.ShowWarningToast | client/src/store/slices/toastSlice.js:46-48 | adds a toast of type "warning" |
| StatusUtils.ToLower | client/src/utils/statusUtils.js:26 | lower-casing keeps the length, leaves no upper-case letter, leaves every other character alone and maps each upper-case letter to its lower-case one |
| StatusUtils.GetStatusNumber | client/src/utils/statusUtils.js:25-34 | INACTIVE (2) exactly when the text lowercases to "inactive"; any other text, "active" or not, gives ACTIVE (1) |
| StatusUtils.TextLowerIsLowered | client/src/utils/statusUtils.js:5-24 | the lower-case text is the lower-cased text, for every status |
| StatusUtils.ToLowerIdempotent | client/src/utils/statusUtils.js:26 | lower-casing twice is lower-casing once |
| StatusUtils.StatusNumberIgnoresCase | client/src/utils/statusUtils.js:25-34 | getStatusNumber gives the same number for a text and its lower-cased form |
| StatusUtils.StatusRoundTrip | client/src/utils/statusUtils.js:5-34 | for 1 and 2, the text (either casing) maps back to the status; any other status reads "Unknown", which maps to ACTIVE |
| StatusUtils.StatusClassesAgree | client/src/utils/statusUtils.js:5-47 | text, lower-case text and colour split statuses into the same three classes, and isUserActive holds exactly for "Active" |
| ExpenseFilters.HandleFilterChange | client/src/components/Expenses/ExpenseFilters.jsx:16-45 | the step-by-step handler dispatches what the declarative FilterChange describes, or nothing |
| ExpenseFilters.FilterChangeSpec | client/src/components/Expenses/ExpenseFilters.jsx:16-45 | "" and "all" clear the key; a malformed or future date is ignored; otherwise the key is stored, parsed when it contains "_id"; page resets to 1 and other keys are kept |
| ExpenseFilters.DateStoredAsText | client/src/components/Expenses/ExpenseFilters.jsx:22-40 | a date key is stored as the text typed |
| ExpenseFilters.ActiveFiltersSurviveNormalise | client/src/components/Expenses/ExpenseFilters.jsx:51-53 | setFilters' normalising keeps whether a filter is active, and the default filters are not active |
| ExpenseFilters.ChangeThenSetFilters | client/src/components/Expenses/ExpenseFilters.jsx:40-44 | choosing "" or "all" removes the key once setFilters has normalised the dispatched filters, and a value that is stored truthily makes the filters active |
| ExpenseForm.SplitJoin | client/src/components/Expenses/ExpenseForm.jsx:278 | `split(".")` loses nothing: joining the parts with "." gives the text back |
| ExpenseForm.ValidateSpec | client/src/components/Expenses/ExpenseForm.jsx:264-272 | the message "Amount can have maximum 2 decimal places" is returned exactly when the text after the first "." has more than two characters, and true otherwise |
| ExpenseForm.TruncateSpec | client/src/components/Expenses/ExpenseForm.jsx:275-284 | text without "." or with at most two decimals is unchanged; otherwise the result splits at "." into exactly the whole part and the first two decimals, so anything after a second "." is dropped |
| ExpenseForm.TruncateIdempotent | client/src/components/Expenses/ExpenseForm.jsx:275-284 | truncating twice equals truncating once |
| ExpenseForm.TruncatedIsValid | client/src/components/Expenses/ExpenseForm.jsx:264-284 | a truncated text passes validate, when validate sees that text |
| ErrorHandler.StatusOr | backend/middleware/errorHandler.js:8 | the status sent is always truthy: the error's own statusCode when truthy, otherwise 500 |
| ErrorHandler.HandleError | backend/middleware/errorHandler.js:1-31 | the rules applied one after another give the priority classification, the response status is the record's statusCode, and success is false |
| ErrorHandler.ClassifySpec | backend/middleware/errorHandler.js:5-28 | ValidationError gives 400 "Validation failed" with the details and overrides the code rules; ER_DUP_ENTRY gives 400; ECONNREFUSED gives 503; otherwise the error's message and status, or the defaults |
| ErrorHandler.NotFound | backend/middleware/errorHandler.js:34-38 | the forwarded error has statusCode 404 and message "Route not found - " followed by the URL |
| ErrorHandler.NotFoundResponse | backend/middleware/errorHandler.js:1-38 | an unmatched route is answered with 404 and "Route not found - " followed by the URL |

## Left out

- The SQL text is not modelled. Each query's result is computed from the tables.
- findAll: how the filter conditions are appended to the JOIN clause is not modelled. The filtered and ordered rows are an input to `FindAll`.
- findAll: the Expense objects built from the rows are not modelled.
- The database driver, Express routing, `console.log` and `console.error` are left out. The error handler returns the response it would send.
- Promises, async thunks and Redux dispatch are left out. Each thunk is one step, with the API response as a parameter. So the model has no interleaving between concurrent thunks. `refreshAllStatistics` is not modelled.
- `createExpense.rejected` shares `ListRejected` with `fetchExpenses.rejected`; the default text is a parameter.
- createExpense, updateExpense and deleteExpense have no guard; their request step (the API call) is not modelled, only their reducers.
- `parseFloat` of DECIMAL columns and JavaScript floating point are left out. Amounts stay exact integer cents.
- MonthlyChanges.PercentageChange rounds the exact quotient. MySQL keeps only four extra decimal digits for the intermediate division (div_precision_increment), so a value near a rounding boundary may differ in the last digit.
- TopSpendingDays.TopDaysSpec: ROW_NUMBER breaks ties between equal daily totals in an unspecified order. The model picks one order, and its lemmas state only facts that hold for any tie order.
- Date parsing and time zones in the filter panel are not modelled. `new Date(value)` is the `parseDate` parameter, and the end of today is the `endOfToday` parameter. `parseInt` is a parameter too.
- StatusUtils.ToLower lowers ASCII letters only. This is exact for the texts "active" and "inactive" that the helper compares against, but not for other Unicode letters.
- `JSON.stringify` is the `stringify` parameter of `CreateGuardKey`. Its injectivity is assumed as a precondition of `GuardKeyInjective`.
- The filters object's key order is not modelled. Filters are a map.
- Expense.update: `Object.assign(this, data)` and the `findById` re-read are not modelled. `UpdateOf` returns the statement and its parameters. A driver error, which `update` rewraps as "Failed to update expense: " and the driver's message, is not modelled.
- Expense.create, Expense.delete and Expense.findById are not part of the core.
- ExpenseQueries.FindAllSpec: the error text is "Failed to fetch expenses". The driver's own message, which the source appends after ": ", is not modelled.
- A toast's id (`Date.now() + Math.random()`) and its timestamp are the `id` and `now` parameters.
- UiSlice.UiStore.SetShowExpenseForm: the payload is a boolean. A payload of another type, such as `undefined`, is not modelled. The same holds for `SetShowDeleteModal` and `SetSidebarOpen`.
- ExpenseForm.ValidateSpec: `validate` receives a number and tests its `toString()`. The model takes that text as its input, and `None` stands for the falsy numbers 0 and NaN. How a floating-point number prints is not modelled.
- ExpenseForm.TruncatedIsValid: assumes `validate` sees the typed text. It sees `Number(text).toString()` instead. From 1e21 upwards that prints in exponent form, e.g. "1.5e+21" for "1500000000000000000000", which has more than two characters after the point and is rejected.
- The form's other rules (`required`, `min`) and React rendering are not modelled.
