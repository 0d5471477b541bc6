# Construction-firm back office: verified model of its business rules

The system is a multi-tenant Django back office for small construction firms.
Each organization's owner and foremen do the following:
- keep a monthly **timesheet**: one WorkLog cell per worker and day, with an audit history of changes;
- generate and close **payrolls** from those hours, per-day **bonus days** and cash **advances**;
- track **employment periods** as workers are hired, deactivated and re-activated;
- keep foremen's **wallets**: refills, expenses and advances, with their permission rules;
- summarise **project costs**, keeping one default project per organization;
- force a password change through a **middleware gate** and a **password complexity validator**.

This project restates those rules in Dafny and proves what they promise.

Conventions used throughout:
- Record tables are maps keyed by their unique key, or sequences of rows. The maps are:
  - WorkLog by (worker, date);
  - BonusDay by (organization, date);
  - Payroll by (worker, year, month).
  
  These are the uniqueness constraints of business/models.py:236, 466, 523.
- Aggregations over the ORM are folds over those sequences.
- Hours are counted in tenths, because the column keeps one decimal place.
- Money is counted in grosze. Hourly rates and bonus amounts are whole PLN.
- "Today" and the acting user are parameters.
- Operations that change tables in place are methods of classes:
  - `TimesheetStore`, `PayrollBook`, `BonusBook`, `WorkerRecord`, `FinanceBook`, `ProjectBook`.
  - Most methods are proved equal to a pure function of the old state.
  - The `FinanceBook` methods and `ProjectBook.Delete` leave the fresh ids open, so their contracts relate the old and the new state instead.
  - The properties the source promises are lemmas about those functions.

Modules:
- `Calendar`: dates, month arithmetic, the `year`/`month` query normalisation, future days.
- `Lists`: filtering, insertion sort, lexicographic and composite sort keys.
- `Records`: the shared rows (workers, payrolls, transactions, vacations) and the month lock.
- `Timesheet`: single-cell write and bulk fill, with the audit log and the grid's worker list.
- `Payrolls`: generation, close/reopen, month statistics, the export guard.
- `Bonuses`: the bonus-day registry and its closed-month lock.
- `Employment`: `Worker.save` and its employment periods.
- `Vacations`: `Vacation.clean`.
- `Ledger`: wallet balances, permissions, wallet assignment, transaction deletion.
- `Projects`: cost annotation, project listing, the single-default rule, deletion, the monthly summary.
- `Passwords`: `ComplexPasswordValidator.validate`.
- `Gate`: `PasswordChangeMiddleware`.
- `Consistency`: how the payroll month lock governs the timesheet and bonus days.

## Model

| member | source | states |
|---|---|---|
| Calendar.DaysInMonth | business/views/timesheet.py:25 | a month has 28 to 31 days; it has 29 exactly in February of a leap year |
| Calendar.MaxDate | business/models.py:116 | the later of two dates: it is one of them and no earlier than either |
| Calendar.YearMonthFromQuery | business/views/timesheet.py:29-41 | the normalised month always lies in 1..12 |
| Calendar.YearMonthMeaning | business/views/timesheet.py:29-41 | a month below 1 becomes December of the previous year and one above 12 January of the next; a malformed value falls back to the current year and month; a missing one takes the current value |
| Calendar.FutureDays | business/views/timesheet.py:23-26 | exactly the days of the month strictly after today, ascending, and closed upwards to the month's last day |
| Timesheet.ParseHours | business/views/timesheet.py:274-282 | unparsable input is a 400; blank reads 0; whole hours are clamped into 0..24 |
| Timesheet.FindWorker | business/views/timesheet.py:288-290 | finds a roster worker with that id in the organization, or reports that none exists |
| Timesheet.WholeHours | business/views/timesheet.py:308-309 | the stored value shown back on a locked cell is its whole hours, rounded down |
| Timesheet.OverwriteWarning | business/views/timesheet.py:343-380 | warns exactly when a cell exists, was written by another account and changes value, naming the previous author |
| Timesheet.WriteCell | business/views/timesheet.py:330-374 | the cell exists afterwards iff hours > 0, holding the actor as author and the existing project or else the default; other cells are untouched; a history row (old, new, actor) is appended only when an existing cell changes value |
| Timesheet.AfterUpdate | business/views/timesheet.py:263-408 | 400 exactly on unparsable hours, an impossible date, or, for a date not in the future, a worker outside the organization; 403 on a future date or when a non-owner writes for a worker linked to another account; only an admitted request on a CLOSED month is refused with the stored value shown back; only an admitted request on an open month writes, through `WriteCell`, with the overwrite warning and the vacation warning (hours > 0 on a vacation day); anything but a write leaves the sheet unchanged |
| Timesheet.UpdateIdempotent | business/views/timesheet.py:330-374 | sending the same value again changes nothing and raises no overwrite warning |
| Timesheet.UpdateKeepsWithinDay | business/views/timesheet.py:282-374 | every stored cell keeps more than 0 and at most 24 hours |
| Timesheet.BulkTargets | business/views/timesheet.py:446-464 | the targets are exactly the active workers of the organization that are selected or are the actor's own worker |
| Timesheet.AfterBulkFill | business/views/timesheet.py:411-606 | 400 exactly on a missing or impossible date, or unparsable hours for a date not in the future; 403 exactly on a future date; either way the sheet is unchanged; otherwise the per-worker loop reading the snapshot taken before it |
| Timesheet.BulkCounts | business/views/timesheet.py:497-522 | each target is counted exactly once as written, forbidden, closed or unchanged |
| Timesheet.BulkHistoryAppends | business/views/timesheet.py:520-532 | the history only grows, and each added row records a real change of the filled day to the filled value, by the actor |
| Timesheet.BulkFrame | business/views/timesheet.py:497-588 | cells of other dates and of non-target workers are untouched |
| Timesheet.BulkKeepsWithinDay | business/views/timesheet.py:431-549 | every stored cell keeps more than 0 and at most 24 hours |
| Timesheet.BulkFoldAppend | business/views/timesheet.py:497 | processing a list of workers is processing its two halves one after the other |
| Timesheet.BulkHistoryRows | business/views/timesheet.py:497-532 | the loop appends to the history exactly the due rows of its targets, in target order |
| Timesheet.ChangedRowsSound | business/views/timesheet.py:520-532 | each due row is for a target the actor may edit, in an open month, whose cell existed with hours other than the filled value, and records those stored hours as old and the filled value as new |
| Timesheet.ChangedRowsComplete | business/views/timesheet.py:520-532 | every editable, unlocked target whose existing cell changes has a due row |
| Timesheet.ChangedRowsDistinct | business/views/timesheet.py:497-532 | with distinct ids, no worker has two due rows |
| Timesheet.BulkFillHistory | business/views/timesheet.py:497-532 | the old history stays; each new row is for a target whose stored cell changes and records the stored and the filled hours and the actor; each such target gets exactly one row and no other worker any |
| Timesheet.BulkCellResult | business/views/timesheet.py:497-549 | with distinct ids, a forbidden or closed target keeps its cell; any other target keeps an unchanged cell as it was (author included), and a changed one is re-stamped with the actor, keeping its project or taking the default, or removed for 0 |
| Timesheet.BulkFillMeaning | business/views/timesheet.py:497-549 | a forbidden or closed target keeps its cell; an unchanged cell stays exactly as it was; a changed cell is re-stamped with the actor, keeping its project or taking the default, or removed for 0; the counters add up to the number of targets |
| Timesheet.BulkOverwriteScenario | business/views/timesheet.py:497-556 | filling 8 hours over 10 hours by another author and into an empty cell: one history row (10 to 8) and a warning naming the earlier author for the first, a new cell without history for the second |
| Timesheet.TimesheetStore.UpdateCell | business/views/timesheet.py:263-408 | the new table, history and outcome are those of `AfterUpdate` |
| Timesheet.TimesheetStore.BulkFill | business/views/timesheet.py:411-606 | the new table, history and outcome are those of `AfterBulkFill` |
| Timesheet.VisibleWorkers | business/views/timesheet.py:45-68 | the signals replace the stored visible set when present; the user's own worker is always visible |
| Timesheet.SelectableWorkers | business/views/timesheet.py:70-84 | a permutation of the roster's active workers of the organization the actor may edit, sorted by last then first name |
| Timesheet.GridWorkers | business/views/timesheet.py:77-83 | a permutation of the visible selectable workers, the user's own worker first, then by name |
| Timesheet.OwnWorkerFirst | business/views/timesheet.py:81-83 | when the user's own worker is on the grid, it is the first row |
| Payrolls.Selected | business/views/payroll.py:369-396 | exactly the organization's workers (inactive included) with month hours > 0 or month advances > 0, with distinct ids when the roster's are distinct |
| Payrolls.BonusMap | business/views/payroll.py:401-405 | the organization's bonus days of the month with their amounts |
| Payrolls.BonusLogs | business/views/payroll.py:413-420 | the logs of selected workers with hours > 0 on a bonus date |
| Payrolls.NoBonusLogs | business/views/payroll.py:412-413 | a month with no bonus days gives no bonus logs |
| Payrolls.AccumulateBonuses | business/views/payroll.py:422-425 | each worker's accumulated bonus equals the sum over the worker's bonus logs |
| Payrolls.BonusTotalBounds | business/views/payroll.py:422-425 | a bonus is never negative, and is 0 for a worker with no bonus log |
| Payrolls.WorkerBonuses | business/views/payroll.py:412-425 | each worker's bonus is the sum of bonus amounts over the month's bonus dates on which that worker logged hours |
| Payrolls.Computed | business/views/payroll.py:434-461 | DRAFT row; gross = hours x rate + bonus; net = gross − advances; the rate snapshot is the worker's current rate |
| Payrolls.PayrollFor | business/views/payroll.py:369-461 | a worker's DRAFT row takes the month's hours and the month's advances each summed over its own rows, with consistent gross and net pay |
| Payrolls.GenerateFrame | business/views/payroll.py:427-462 | rows of other months, organizations and unselected workers are untouched |
| Payrolls.GenerateCounts | business/views/payroll.py:427-462 | each selected worker counts once as generated or as skipped |
| Payrolls.GenerateFoldAt | business/views/payroll.py:427-462 | a CLOSED row is kept; other selected workers get the computed row |
| Payrolls.GeneratedAt | business/views/payroll.py:427-462 | after generation, a selected worker's row is the old CLOSED row or the DRAFT row with the corrected per-table sums (not the fanned-out query as written) |
| Payrolls.GenerateIdempotent | business/views/payroll.py:440-461 | generating twice on the same tables gives the same rows as once, with the corrected sums |
| Payrolls.GeneratedRowsConsistent | business/views/payroll.py:434-461 | every generated row satisfies gross = hours x rate + bonus and net = gross − advances, with hours and advances from the corrected sums |
| Payrolls.AsWrittenAgreesWithoutFanOut | business/views/payroll.py:369-396 | the query as written agrees with the intended row when the worker has at most one work-log row and at most one transaction naming the worker, over all dates |
| Payrolls.AsWrittenDoubleCountsAdvances | business/views/payroll.py:369-396 | two logs and one advance in a month: the query as written deducts the advance twice |
| Payrolls.CloseMonth | business/views/payroll.py:511-514 | every DRAFT row of that organization and month becomes CLOSED, nothing else changes, and the count is the number of such rows |
| Payrolls.ReopenMonth | business/views/payroll.py:558-561 | every CLOSED row of that organization and month becomes DRAFT, nothing else changes, and the count is the number of such rows |
| Payrolls.CloseLocks | business/views/payroll.py:511-514 | after close, a worker with a row in that month is locked |
| Payrolls.ReopenUnlocks | business/views/payroll.py:558-561 | after reopen, no worker of the organization is locked in that month |
| Payrolls.CloseIdempotent | business/views/payroll.py:511-514 | closing twice equals closing once; the second count is 0 |
| Payrolls.ReopenAfterClose | business/views/payroll.py:558-561 | reopening after a close gives the same table as reopening alone: closing loses nothing |
| Payrolls.PayrollBook.Generate | business/views/payroll.py:353-494 | malformed year or month changes nothing; otherwise rows and counts are those of the generation fold, which uses the corrected sums in place of the query as written |
| Payrolls.PayrollBook.Close | business/views/payroll.py:495-541 | malformed year or month changes nothing; otherwise rows and count are those of `CloseMonth` |
| Payrolls.PayrollBook.Reopen | business/views/payroll.py:542-585 | malformed year or month changes nothing; otherwise rows and count are those of `ReopenMonth` |
| Payrolls.Stats | business/views/payroll.py:294-314 | DRAFT iff some row is DRAFT; CLOSED iff rows exist and all are CLOSED; EMPTY iff there are no rows |
| Payrolls.StatsBalance | business/views/payroll.py:294-314 | total payout = total earned − total advances |
| Payrolls.ExportRows | business/views/payroll.py:83-84 | not found exactly when the month has no CLOSED row; otherwise exactly its CLOSED rows |
| Bonuses.AddDay | business/views/payroll.py:226-243 | refused as invalid exactly on a malformed amount or date; outside the month exactly for a valid date in another month; a storage error exactly for a negative amount; otherwise saved, upserting the one bonus of (organization, date) |
| Bonuses.AsWrittenManage | business/views/payroll.py:208-247 | a closed selected month refuses every POST, but a delete removes the named row whatever its month |
| Bonuses.AsWrittenDeleteBypassesLock | business/views/payroll.py:216-247 | a bonus of a closed February is deleted by a request selecting March |
| Bonuses.Manage | business/views/payroll.py:216-247 | a closed month refuses every POST, whatever its action; a GET or an unknown action changes nothing; in an open month an add has the add path's result and a delete removes the organization's named row exactly when it lies in the selected month |
| Bonuses.ClosedMonthFrozen | business/views/payroll.py:216-223 | a bonus day of a month with a CLOSED payroll never changes |
| Bonuses.OtherOrganizationsUntouched | business/views/payroll.py:236-246 | other organizations' bonus days never change |
| Bonuses.AmountsStayNonNegative | business/models.py:448-466 | stored amounts stay non-negative |
| Bonuses.BonusBook.Post | business/views/payroll.py:208-247 | the new table and outcome are those of `Manage` |
| Employment.OpenCountZero | business/models.py:109-121 | no open period iff every period has an end date |
| Employment.OpenCountAppend | business/models.py:84-117 | appending a period adds one open period iff it has no end |
| Employment.OpenCountMoveStart | business/models.py:92-108 | moving a start date keeps the number of open periods |
| Employment.CloseOpen | business/models.py:109-121 | open periods end today, closed ones are kept, and none stays open |
| Employment.MovedIndex | business/models.py:96-104 | the period starting on the old hire date, else the earliest one |
| Employment.FirstStartingOn | business/models.py:96-99 | the first period starting on the date, or none exists |
| Employment.Earliest | business/models.py:100-104 | the first period with the earliest start |
| Employment.AfterSave | business/models.py:67-121 | the save is recorded as seen; the linked account is deactivated exactly on a deactivation of a saved worker |
| Employment.CreateStartsOnePeriod | business/models.py:84-90 | a new worker gets one period from the hire date, open iff active, else ending on the hire date |
| Employment.DeactivationClosesAll | business/models.py:72-121 | deactivation with an unchanged hire date closes every open period today and deactivates the account |
| Employment.ActivationOpensOne | business/models.py:109-117 | activation closes open periods today and opens one from the later of today and the hire date |
| Employment.HireDateMovesOneStart | business/models.py:92-108 | a hire-date change moves exactly one period's start and keeps every end, or, with no period yet, creates the first one, open iff active; the status branch is skipped |
| Employment.UnchangedSaveKeepsPeriods | business/models.py:67-121 | a save with nothing changed leaves the periods alone |
| Employment.SecondSaveIdle | business/models.py:79-80 | saving again right after a save changes nothing |
| Employment.SaveKeepsTracking | business/models.py:67-121 | if the periods held one open period iff active, they still do, unless the hire date and status change together |
| Employment.HireDatePrecedence | business/models.py:92-108 | changing the hire date and deactivating in one save leaves an inactive worker with an open period |
| Employment.WorkerRecord.constructor | business/models.py:50-53 | an unsaved worker remembers its initial status and hire date |
| Employment.WorkerRecord.Load | business/models.py:50-53 | a loaded worker remembers its stored status, hire date and periods |
| Employment.WorkerRecord.Save | business/models.py:67-121 | the new state is `AfterSave` of the old one |
| Vacations.CheckVacation | business/models.py:430-445 | refused iff the start is after the end, or it overlaps (bounds included) another vacation of the same worker other than itself; accepted otherwise |
| Vacations.AcceptedInsertKeepsDisjoint | business/models.py:430-445 | saving an accepted new vacation keeps each worker's vacations disjoint |
| Vacations.AcceptedEditKeepsDisjoint | business/models.py:430-445 | saving an accepted edit keeps each worker's vacations disjoint |
| Vacations.OneVacationPerDay | business/models.py:430-445 | in such a table no day of a worker is covered by two vacations |
| Ledger.BalanceIsSignedSum | business/models.py:311-318 | refills − expenses − advances equals the signed sum of the wallet's transactions |
| Ledger.CurrentBalance | business/models.py:311-318 | the balance is the signed sum of the wallet's transactions |
| Ledger.Annotated | business/views/finance.py:22-55 | the annotated balance is refills − expenses − advances and agrees with the model method |
| Ledger.MonthlyWithinTotal | business/views/finance.py:43-54 | the current month's expenses lie between 0 and all expenses |
| Ledger.SignedSumConcat | business/models.py:311-318 | the balance is additive over a split of the transactions |
| Ledger.WorkerAdvancesConcat | business/models.py:58-65 | the advance total is additive over a split of the transactions |
| Ledger.BalanceAfterAppend | business/models.py:311-318 | a new transaction moves its wallet's balance by its signed amount |
| Ledger.BalanceAfterRemove | business/views/finance.py:504-505 | deleting a transaction moves its wallet's balance back by its signed amount |
| Ledger.AdvancesAfterAppend | business/models.py:58-65 | a new advance raises the worker's advance total by its amount; other transactions do not |
| Ledger.CompanyTransactionsOwnerOnly | business/views/finance.py:383-431 | a wallet-less transaction may be edited, deleted (the same test at business/views/finance.py:498-502) or its receipt shown only by the owner |
| Ledger.ForemanOwnWalletOnly | business/views/finance.py:400-431 | a foreman may edit or delete (the same test at business/views/finance.py:498-502) a transaction iff it is on the foreman's own wallet; a receipt also needs an image |
| Ledger.FindTxn | business/views/finance.py:381 | finds a transaction with that id in the organization, or reports that none exists |
| Ledger.ReceiptAccess | business/views/finance.py:376-405 | 404 iff the transaction is not in the organization; shown only with permission and an image; forbidden otherwise |
| Ledger.WalletSet | business/views/finance.py:140-145 | the set of listed wallets |
| Ledger.SignedSumInAdd | business/views/finance.py:151 | adding a wallet to the set adds its balance to the total |
| Ledger.TotalBalanceCountsEachOnce | business/views/finance.py:140-151 | the total balance is the sum of the balances of the distinct listed wallets |
| Ledger.EmptySignedSumIn | business/views/finance.py:151 | the total over no wallets is 0 |
| Ledger.FinanceBook.WalletOf | business/views/finance.py:260-312 | returns the wallet of (user, organization), creating it only when none exists |
| Ledger.FinanceBook.Record | business/views/finance.py:254-312 | appends one transaction with a new id; an owner's carries no wallet, a foreman's the foreman's own |
| Ledger.FinanceBook.AddRefill | business/views/finance.py:203-233 | refused exactly when the actor is not an owner; invalid exactly when an owner names a wallet outside the organization; otherwise appends exactly one refill |
| Ledger.FinanceBook.Delete | business/views/finance.py:491-512 | not found iff no transaction has that id in the organization; forbidden iff it is found and the actor may not modify it; otherwise exactly that row is removed |
| Ledger.FinanceBook.EnsureForemanWallets | business/views/finance.py:129-138 | afterwards every foreman has a wallet and still no user has two; existing wallets are kept and new ones belong to walletless foremen of the organization |
| Projects.Costs | business/views/project.py:30-51 | hours total only the project's logs, expenses only its EXPENSE transactions, and total cost equals total expense |
| Projects.CostAfterBooking | business/views/project.py:38-51 | booking an expense on the project raises its cost by the amount; advances and other projects do not |
| Projects.HoursAfterLogging | business/views/project.py:32-37 | logging hours on the project raises its hours by them |
| Projects.ListProjects | business/views/project.py:54-73 | exactly the organization's non-default projects, ordered PLANNED, ACTIVE, COMPLETED, then by name |
| Projects.ListByStatus | business/views/project.py:63-71 | earlier rows never have a later status |
| Projects.ListByName | business/views/project.py:71 | within a status, names ascend |
| Projects.ClearDefaults | business/views/project.py:94-97 | every other project of the organization loses the default flag; nothing else changes |
| Projects.IndexOf | business/views/project.py:219-221 | finds the project with that id, or reports that none exists |
| Projects.SaveKeepsOneDefault | business/views/project.py:94-99 | after a save the organization has at most one default project, and a saved default is the only one |
| Projects.RemoveKeepsValid | business/views/project.py:226 | deleting a project keeps at most one default per organization and the ids unique |
| Projects.ProjectBook.Create | business/views/project.py:87-101 | the new project gets a fresh id and the table is the save of it |
| Projects.ProjectBook.Edit | business/views/project.py:87-101 | the edited project keeps its id and organization and the table is the save of it |
| Projects.ProjectBook.Delete | business/views/project.py:212-235 | redirected to login exactly when the actor is not an owner; a missing or default project is refused; otherwise exactly that row goes |
| Projects.MentionsPrefix | business/views/project.py:280-290 | a month is mentioned by a prefix plus one row iff by the prefix or that row |
| Projects.MergeMonths | business/views/project.py:280-290 | the merged months are the old ones plus those mentioned, each with its summed hours or expense |
| Projects.MonthlySummary | business/views/project.py:278-300 | each month with hours or expenses appears exactly once, newest first, with both totals (0 when missing) |
| Projects.NewestFirst | business/views/project.py:292 | the months sorted newest first: the same months, each once, in descending order |
| Projects.SummaryRows | business/views/project.py:293-300 | one row per month in order, carrying its totals |
| Projects.NotMentionedTotal | business/views/project.py:280-290 | a month not mentioned totals 0 |
| Passwords.ContainsIn | core/validators.py:16-30 | a character in the range occurs in the password |
| Passwords.Validate | core/validators.py:15-30 | `password_no_upper` iff no A–Z; `password_no_lower` iff an upper but no a–z; `password_no_digit` iff both but no digit; accepted iff all three |
| Passwords.ExtendingKeepsAccepted | core/validators.py:15-30 | appending characters to an accepted password keeps it accepted |
| Passwords.FirstFailureReported | core/validators.py:15-30 | a failing password is always refused, reporting its first failing check |
| Gate.Decide | core/middleware.py:9-19 | redirect exactly when authenticated, flagged, and the path is neither the password-change nor the logout path |
| Gate.AllowedPathsPass | core/middleware.py:11-16 | the password-change and logout paths always pass |
| Gate.UnflaggedPass | core/middleware.py:10-19 | unauthenticated or unflagged requests always pass |
| Gate.RedirectTargetPasses | core/middleware.py:11-17 | the redirect target itself passes, so the redirect cannot loop |
| Gate.ClearedFlagPasses | core/views.py:131-146 | once the password change clears the flag, every path passes |
| Consistency.ClosedMonthRefusesCellWrites | business/views/payroll.py:511-514 | after the month is closed, an admitted cell write is refused and the sheet is unchanged |
| Consistency.ReopenedMonthAcceptsCellWrites | business/views/payroll.py:558-561 | after reopen, an admitted cell write goes through |
| Consistency.ClosedMonthFreezesBonuses | business/views/payroll.py:216-223 | after the month is closed, no bonus post changes the bonus table |

## Left out

- PDF and Excel export (`PayrollPDF` and the export views) are formatting over external libraries; only the "no CLOSED rows, not found" guard is modelled (`Payrolls.ExportRows`).
- HTML and SSE rendering, Datastar signal plumbing and toast messages are presentation. Warnings and counters are returned values instead.
- Authentication, registration and login are out of scope, and so are the owner-only redirects before the views run. `Bonuses.Manage` and the payroll methods are the owner's request.
- The `transaction.atomic` blocks and the races between concurrent requests are not modelled: each operation is one atomic step.
- Decimal storage precision is not modelled. Hours are whole tenths and money whole grosze; the views only ever write whole hours.
- The ORM's query mechanics are not modelled: the `TruncMonth` grouping of the project summary and Coalesce/Sum. Sums are folds over row sequences, and the monthly summary starts from the grouped rows.
- The project list's `icontains` search filter is not modelled, because case folding of Unicode text is outside the model.
- The `Case` default of 4 in the project ordering is unreachable, because a project's status is one of three choices; it is not modelled.
- Parsing of request text is not modelled: the cell key `log_<year>_<month>_<worker>_<day>` (a malformed key is a 400), the JSON body, and the `workerVisible_<id>` signal keys. Requests carry the parsed values; the bulk fill's `selected` set is the ids the signals or the stored visibility give.
- The signal-key parsing of the grid is likewise not modelled: `Timesheet.VisibleWorkers` takes the already-parsed ids.
- The project and default-project lists that the timesheet grid renders (business/views/timesheet.py:100-116) are display data, so they are left out.
- Form validation of field types and lengths is not modelled: forms are taken as valid.
- Uploading and storing receipt images is not modelled; only "an image exists" is kept.
- The bonus-day listing of the manage view is not modelled; it is display only.
- `Ledger.FinanceBook.WalletOf` and `Ledger.FinanceBook.Record` require the user's existing wallets to lie in the actor's organization. A user belongs to one organization, so this always holds; a user moved to another organization, where `get_or_create` would break the one-wallet-per-user constraint, is not modelled.
- Names sort by Unicode code point (`Lists.LexLe`), in `Projects.ListProjects`, `Timesheet.SelectableWorkers` and `Timesheet.GridWorkers`. The database orders `name`, `last_name` and `first_name` by its collation, which may place Polish letters with diacritics differently.
- `Ledger.FinanceBook.Record`: the expense and advance views create a foreman's wallet before they look at the method or the form, so even a GET or an invalid form leaves a new wallet behind. The model creates the wallet only together with a recorded transaction; `Ledger.FinanceBook.WalletOf` is the creation on its own.
- `Projects.ProjectBook.Delete`: the database sets `project` to NULL on the deleted project's work logs and expenses (`on_delete=SET_NULL`). The model keeps only the project table, so those rows still carry the removed id.
- Payroll generation for a worker of another organization is ruled out by the organization filter, so the database's integrity errors do not arise. Other integrity errors are modelled as `StorageError` (a negative bonus amount).
- `Employment.FirstStartingOn` and `Employment.Earliest` break ties by creation order. The database's `.first()` order on a tie is unspecified.
- `Gate.Decide`: the password-change and logout paths are parameters, because `reverse` depends on the URL configuration.
- `Passwords.Validate`: the digit check accepts ASCII 0–9 only. The source's `\d` also matches other Unicode decimal digits.
- `Employment.AfterSave`: a hire-date change together with a status change skips the status branch, as the source does. `Employment.HireDatePrecedence` shows that this can leave an inactive worker with an open period.
- The timesheet history view and the assign-project view, and the worker, vacation and promotion views, are not part of this model.

## Findings

| source | as written | input that shows it | evidently intended | confidence | as-written member | corrected member |
|---|---|---|---|---|---|---|
| business/views/payroll.py:369-396 | two `Sum` annotations over two reverse relations (work logs and advances) in one query, so each sum is multiplied by the number of rows of the other | a worker with 2 work logs and 1 advance of 100 PLN in the month: the advance is deducted twice (200 PLN) | each sum taken over its own rows: hours = sum of the month's logs, advances = sum of the month's advances | not executed | Payrolls.AsWrittenDoubleCountsAdvances | Payrolls.PayrollFor |
| business/views/payroll.py:216-247 | the closed-month lock looks only at the month selected in the request, and the delete removes the bonus with the posted id whatever its date | a bonus on 2026-02-10 with February CLOSED, deleted by a request selecting March 2026 | a bonus day of a closed month can be neither added nor removed | not executed | Bonuses.AsWrittenDeleteBypassesLock | Bonuses.Manage |
