# A verified model of the posting engine and its users

This project models the accounting core of the repository in Dafny and proves what it promises
over whole runs. The state is two append-only ledgers that must agree, the physical cash rows
and the double-entry journal, together with cashbox balances and the chart of accounts.
Amounts are whole cents.

- `Sums.dfy`, `Ledger.dfy`: sums over tables, the tables themselves and the figures read from them.
- `Alignment.dfy`: the greedy guard that pairs cash movements with liquid journal lines.
- `Engine.dfy`: `recordTransaction` and `recordCashOnlyMovement`, as a class that changes the tables
  statement by statement, proved against one specification function per call.
- `Postings.dfy`: one call in full, when it is accepted, replayed or refused and all it writes, in terms
  of the request and the tables alone.
- `Runs.dfy`, `ExactBooks.dfy`: the invariant of every run, idempotency, the trial balance, and the
  drift identity between the two ledgers.
- `Recipes.dfy`: the specs built for expenses, variances, transfers, adjustments and openings, with
  the exact condition under which each is posted.
- `RecipeBooks.dfy`: what each accepted recipe writes, and its effect on every account, figure and cashbox.
- `Reversal.dfy`, `References.dfy`: reversing a document, what that leaves, and which documents can
  be reversed at all.
- `Trace.dfy`, `DriftViews.dfy`, `Movements.dfy`: what the reports say about states the engine produces.
- `Corrections.dfy`, `ExpenseDesk.dfy`, `ExpenseRuns.dfy`, `ExpenseEdits.dfy`: additive corrections of edited
  expenses, over whole runs, and when an edit goes through.
- `Approvals.dfy`, `Wages.dfy`, `Statements.dfy`: multi-level approval, wages and statement matching.
- `Cleanup.dfy`: the historical drift cleanup.
- `Chart.dfy`, `BalanceSheet.dfy`, `AccountLedger.dfy`: the account forest and the reports over it.
- `Cashboxes.dfy`: creating a cashbox with its sub-account and opening movement.
- `Csv.dfy`: the CSV printer and parser of the migration scripts, a round trip in the sense of
  section 2 of RFC 4180.

Code that changes state is a class whose methods are proved equal to a specification function on
the tables; the theorems about runs are lemmas about those functions. A database transaction is
a snapshot that is restored when its caller throws.

## Where the code differs from what its comments promise

Each of these is stated by a lemma below.

- A call whose debits total less than a cent succeeds after its cash has moved and before the
  alignment guard (`ExactBooks.ZeroValueMovesCash`).
- A cashbox linked to a sub-account of its own, as `createCashbox` makes them, resolves to a code the
  guard does not watch, so guarded recipes refuse it (`Chart.LiquidBoxIff`, `Cashboxes.NewBoxLiquidIff`),
  its own opening balance among them (`Cashboxes.CreateBoxIff`). The number of the next code is read
  from whole codes, so on the seeded chart only three can be created (`Cashboxes.OnlyThreeCashboxes`).
- A reversal both voids the original and leaves the reversing entry live, so accounts end off by
  the original posting while cash is restored (`Reversal.PostThenReverse`, `Reversal.PostThenReverseCash`).
- A cash document that was reversed and posted again cannot be reversed a second time, and a document
  whose reference type is only an alias cannot be reversed at all if it moved cash
  (`References.ReversibleIff`, `References.AliasedReversibleIff`). The reversing lines are said to keep
  every dimension; they drop the employee, so a document with a line on 213 or 1123 cannot be reversed
  either (`Reversal.ReversalPostsIff`).
- The header comment of `approveEditRequest` describes void and repost; the code posts additive
  corrections, and this is what is modelled. They ignore the payment method
  (`ExpenseRuns.CreditEditMovesCashIff`, `ExpenseRuns.CreditEditAccountsIff`).
- `cashMatched` is documented as checking both directions; the code checks only that each cash line
  has a row (`Trace.MatchedMissesIff`). Rows are looked up by the mapped type and entries by the raw
  one, so the trace of a shift with a variance shows a row without its entry (`Trace.ShiftVarianceTrace`).
- Single-step approval does not look at the approval rows (`Approvals.DirectKeepsIff`), and the
  multi-level path does not pass on that an expense is an advance (`Approvals.RowsForgetAdvancesIff`).
- `payWage` is not one transaction, and does not check the shift or the permission that
  `recordSettlement` asks for (lines 1616-1658 of `employees.service.ts`), so a bonus can stay accrued
  when its settlement is refused (`Wages.HalfPaidIff`). An advance that an approval rule covers is
  submitted without being paid (`Wages.WageEndsWhen`).
- The date test of `autoMatchStatement` takes EXTRACT(EPOCH) of the difference of two dates (lines
  1158-1159 of `cash-desk.service.ts`). In PostgreSQL that difference is an integer, on which EXTRACT
  has no form, so the query fails on every line that is looked up. The results about statement
  matching hold of the rule in the comment on the method, two days either way. Amounts must be equal to the cent: the query's test
  is strict where the comment allows a piaster.
- The cleanup plan voids every duplicated group of an edited invoice as soon as one group outweighs
  its entry (`Cleanup.SoundGroupIsVoided`, `Cleanup.SettlesIff`).
- Contra accounts (123 and 49 in the seeded chart) enter the balance sheet with the wrong sign, and so
  do lines on accounts that have children (`BalanceSheet.ExactGap`); removing a child does not make its
  parent a leaf again (`BalanceSheet.CreateThenRemoveLosesLines`).
- In the unified feed the opening without a from date is the whole history rather than nothing, and
  voided rows are counted (`Movements.FeedWithoutFromIff`, `Movements.FeedCountsVoids`).
- The CSV printer does not escape headers, the parser splits quoted line feeds, and a one-column file
  loses its nulls (`Csv.HeaderColumnsIff`, `Csv.FileRoundTripIff`, `Csv.OneColumnKeepsIff`).

## Model

| member | source | states |
|---|---|---|
| `Alignment.PairUp` | backend/src/chart-of-accounts/financial-engine.service.ts:334-368 | the greedy loop with its shrinking bag returns the pairing of needs with offers |
| `Alignment.CheckCashGlAlignment` | backend/src/chart-of-accounts/financial-engine.service.ts:258-371 | the guard returns the specified verdict, and without the opt-out passes exactly when every liquid line is tagged and lines and movements agree as bags of (cashbox, signed amount) |
| `Alignment.PairingDecidesBags` | backend/src/chart-of-accounts/financial-engine.service.ts:334-368 | taking the first equal offer for each need decides bag equality, and a leftover means strict inclusion |
| `Alignment.GuardDecidesAgreement` | backend/src/chart-of-accounts/financial-engine.service.ts:258-371 | without accounting_only the guard accepts if and only if both sides agree as bags |
| `Alignment.GuardIgnoresOrder` | backend/src/chart-of-accounts/financial-engine.service.ts:258-371 | reordering the lines or the movements never changes whether the guard passes |
| `Alignment.AgreementConservesCash` | backend/src/chart-of-accounts/financial-engine.service.ts:258-371 | an aligned posting moves in each cashbox exactly what it books on liquid accounts there |
| `Alignment.VerdictMeans` | backend/src/chart-of-accounts/financial-engine.service.ts:258-371 | a refusal complains of an untagged liquid line first, else names a pair needed more often than offered or offered more often than needed; the opt-out bypasses whatever there is to compare |
| `Ledger.EntityTypesClosed` | backend/src/chart-of-accounts/financial-engine.service.ts:919-984 | every reference type maps to a member of the entity enumeration |
| `Ledger.EntityTable` | backend/src/chart-of-accounts/financial-engine.service.ts:919-984 | the tag of every reference type: its alias if it has one and that is in the enumeration, else "other" |
| `Ledger.OnlyReturnsAreReturns` | backend/src/chart-of-accounts/financial-engine.service.ts:919-984 | no other reference type is tagged as a return |
| `Engine.FinancialEngine.RecordCashboxTxn` | database/migrations/068_financial_integrity_enforcement.sql:146-190 | appends one cash row and moves the running balance with it, or finds no cashbox and changes nothing |
| `Engine.FinancialEngine.MoveCash` | backend/src/chart-of-accounts/financial-engine.service.ts:465-472 | pays the movements in order, collecting consecutive ids, and stops at the first unknown cashbox |
| `Engine.FinancialEngine.ResolveLines` | backend/src/chart-of-accounts/financial-engine.service.ts:474-515 | resolves every line by id, code or cashbox and tags a cashbox-resolved line, or fails as a whole |
| `Engine.FinancialEngine.WriteEntry` | backend/src/chart-of-accounts/financial-engine.service.ts:547-708 | appends one entry holding the nonzero lines and flags the reversed original void |
| `Engine.FinancialEngine.BookEntry` | backend/src/chart-of-accounts/financial-engine.service.ts:517-708 | balance, zero-value, alignment and key checks in the source order, then the entry |
| `Engine.FinancialEngine.RunInTransaction` | backend/src/chart-of-accounts/financial-engine.service.ts:403-738 | one call inside a transaction equals the specified step on the tables |
| `Engine.FinancialEngine.RecordTransaction` | backend/src/chart-of-accounts/financial-engine.service.ts:389-753 | with a caller transaction the state is that of the failed or finished step; without one a rejected call leaves every table as it was |
| `Engine.FinancialEngine.RecordCashOnlyMovement` | backend/src/chart-of-accounts/financial-engine.service.ts:1472-1543 | one cash row and balance change without entry, lockdown or idempotency |
| `Engine.FinancialEngine.ExecuteAll` | backend/src/accounting/accounting.service.ts:580-588 | a caller that throws at the first failed call gets all of its calls or none |
| `Postings.BooksToIff` | backend/src/chart-of-accounts/financial-engine.service.ts:1023-1042 | a cashbox books to its first active link, else to the first active account with the code of its kind |
| `Postings.ResolveIff` | backend/src/chart-of-accounts/financial-engine.service.ts:474-515 | what is written for a requested line: the account it names, its amounts and employee, and the cashbox it is tagged with or else resolved from |
| `Postings.PostsExactlyWhen` | backend/src/chart-of-accounts/financial-engine.service.ts:389-753 | a call posts if and only if its conditions, written out on the request and the tables before it, hold |
| `Postings.ReplaysIff` | backend/src/chart-of-accounts/financial-engine.service.ts:447-463 | a call replays if and only if it is proper, nothing is locked and its document has a live entry, which it returns; a document whose entries are void posts again |
| `Postings.RefusedExactlyWhen` | backend/src/chart-of-accounts/financial-engine.service.ts:403-708 | each error has its exact condition, in the order of the checks |
| `Postings.PostedExactly` | backend/src/chart-of-accounts/financial-engine.service.ts:465-738 | an accepted call, field by field: rows with running balances under the mapped type, one live entry under the type itself on the date asked for, the reversed entry flagged, nothing else |
| `Postings.MovedExactly` | backend/src/chart-of-accounts/financial-engine.service.ts:1472-1543 | a cash-only movement succeeds for a positive amount and a known cashbox and adds its row and no entry |
| `Postings.PostedAsOf` | backend/src/chart-of-accounts/financial-engine.service.ts:547-600 | a posting counts in the figures of every account from its own date on, and takes the entry it reverses out from that one's date on |
| `Runs.RecordKeeps` | backend/src/chart-of-accounts/financial-engine.service.ts:389-753 | one call keeps balances equal to the cash ledger, one live entry per document, sane entries and voids that are exactly reversals |
| `Runs.RunKeeps` | backend/src/chart-of-accounts/financial-engine.service.ts:389-753 | every run of transactions keeps that invariant |
| `Runs.ReachableKeeps` | backend/src/chart-of-accounts/financial-engine.service.ts:389-753 | it holds in every state reached from empty books with all cashboxes at zero |
| `Runs.PostKeepsUnique` | database/migrations/060_db_first_ledger_hardening.sql:83-99 | posting after the idempotency check keeps at most one live entry per reference |
| `Runs.PostKeepsVoids` | backend/src/chart-of-accounts/financial-engine.service.ts:689-708 | an entry is void exactly when a later entry reverses it |
| `Runs.PostedOnce` | backend/src/chart-of-accounts/financial-engine.service.ts:447-463 | whatever ran in between, re-issuing a posted call whose entry is not void returns that entry and changes nothing |
| `Runs.TrialBalanceBounded` | backend/src/chart-of-accounts/financial-engine.service.ts:517-525 | over any run the books are out by at most one cent per live entry |
| `Runs.DriftIdentity` | backend/src/chart-of-accounts/financial-engine.service.ts:389-753 | for every run, cashbox and scope of documents: cash rows less live legs are the leaks of the run plus the legs of the voided entries |
| `Runs.GuardedDrift` | backend/src/chart-of-accounts/financial-engine.service.ts:389-753 | when every call is guarded and has value, drift is exactly the cash-only movements plus the voided legs |
| `Runs.AcceptedPosts` | backend/src/chart-of-accounts/financial-engine.service.ts:447-535 | an accepted call of at least a cent that replays nothing writes an entry |
| `Recipes.CashExpensePostsIff` | backend/src/chart-of-accounts/financial-engine.service.ts:1114-1212 | a cash expense posts exactly for a positive amount, a cashbox on a watched account and an existing unwatched debit account, which names an employee if it is a personal one |
| `Recipes.CreditExpensePostsIff` | backend/src/chart-of-accounts/financial-engine.service.ts:1114-1212 | a credit expense posts exactly when both its accounts exist outside the liquid codes and name an employee where the database asks for one |
| `Recipes.VariancePostsIff` | backend/src/chart-of-accounts/financial-engine.service.ts:1240-1365 | a shift variance posts exactly when its treatment fits its sign and its accounts are in place, for all four treatments |
| `Recipes.TransferPostsIff` | backend/src/chart-of-accounts/financial-engine.service.ts:1374-1431 | a transfer posts exactly between two distinct watched cashboxes for a positive amount |
| `Recipes.ManualPostsIff` | backend/src/chart-of-accounts/financial-engine.service.ts:1545-1598 | a manual adjustment posts exactly for a positive amount, a watched cashbox and its capital or drawings account |
| `Recipes.OpeningPostsIff` | backend/src/chart-of-accounts/financial-engine.service.ts:1682-1788 | with the accounts its figures name in place the opening entry posts exactly when the plug is not negative, something is debited, two lines remain and the sides agree to a cent |
| `RecipeBooks.ExpenseBooks` | backend/src/chart-of-accounts/financial-engine.service.ts:1114-1212 | the entry, lines and rows of an expense: 1123 for an advance, else the category or 529, against the cashbox or 211, on its date, and its effect on every account, dated figure and cashbox |
| `RecipeBooks.VarianceBooks` | backend/src/chart-of-accounts/financial-engine.service.ts:1240-1365 | a surplus enters the cashbox against 421 or 215; a shortage leaves it against 531, or against 1123 with the name of the employee; on every account, dated figure and cashbox |
| `RecipeBooks.TransferBooks` | backend/src/chart-of-accounts/financial-engine.service.ts:1374-1431 | a transfer takes its amount out of the source and puts it into the target, in rows, lines, accounts, dated figures and cash, and leaves the rest alone |
| `RecipeBooks.ManualBooks` | backend/src/chart-of-accounts/financial-engine.service.ts:1545-1598 | a deposit enters the cashbox against 31, a withdrawal leaves it against 32, in rows, lines, accounts, dated figures and cash |
| `RecipeBooks.OpeningBooks` | backend/src/chart-of-accounts/financial-engine.service.ts:1682-1788 | each figure of an opening lands on its account, the capital or the difference on 31, and the cash in one row |
| `ExactBooks.ExactRunBalances` | backend/src/chart-of-accounts/financial-engine.service.ts:517-525 | from empty books, calls asking for equal debits and credits keep the trial balance at exactly zero |
| `ExactBooks.ExpenseIsExact` | backend/src/chart-of-accounts/financial-engine.service.ts:1114-1212 | the expense recipe asks for equal debits and credits |
| `ExactBooks.VarianceIsExact` | backend/src/chart-of-accounts/financial-engine.service.ts:1240-1365 | so does the shift variance recipe |
| `ExactBooks.TransferIsExact` | backend/src/chart-of-accounts/financial-engine.service.ts:1374-1431 | so does the transfer recipe |
| `ExactBooks.ManualIsExact` | backend/src/chart-of-accounts/financial-engine.service.ts:1545-1598 | so does the manual adjustment recipe |
| `ExactBooks.OpeningExactIff` | backend/src/chart-of-accounts/financial-engine.service.ts:1682-1788 | the opening recipe is exact if and only if capital is left out or equals the difference of the figures |
| `ExactBooks.RecipeRunBalances` | backend/src/chart-of-accounts/financial-engine.service.ts:517-525 | from empty books, any run of expenses, variances, transfers, manual adjustments and openings with matching or absent capital keeps the trial balance at exactly zero |
| `ExactBooks.ZeroValueMovesCash` | backend/src/chart-of-accounts/financial-engine.service.ts:526-535 | exactly the calls with under a cent of debits succeed without an entry, shifting each drift by all the cash they moved |
| `Reversal.ReversalPostsIff` | backend/src/chart-of-accounts/posting.service.ts:1900-1985 | a reversal is accepted exactly when the cash rows found under the document are, as a bag, the liquid legs of the entry and no line is on an employee account |
| `Postings.OriginalIff` | backend/src/chart-of-accounts/posting.service.ts:1920-1931 | what is reversed is the earliest live entry of the document that reverses nothing itself |
| `Postings.ReversedExactly` | backend/src/chart-of-accounts/posting.service.ts:1933-1985 | an accepted reversal, field by field: a live entry on the date of the original with its lines swapped and its cashboxes kept, the original flagged, the rows found paid back |
| `Reversal.PostThenReverse` | backend/src/chart-of-accounts/posting.service.ts:1900-1985 | posting then reversing leaves every account short by the posting, so it is restored only where the posting nets to nothing |
| `Reversal.PostThenReverseCash` | backend/src/chart-of-accounts/posting.service.ts:1953-1985 | the same reversal restores every cashbox to the cent and leaves the voided leg as drift |
| `References.RunTags` | backend/src/chart-of-accounts/financial-engine.service.ts:888-984 | after any run of booked calls the cash rows and the legs under one tag agree as bags |
| `References.ReversibleIff` | backend/src/chart-of-accounts/posting.service.ts:1900-1985 | a document whose rows carry its own tag can be reversed if and only if no line of it is on an employee account and no other entry under the tag, live or void, has a leg |
| `References.AliasedReversibleIff` | backend/src/chart-of-accounts/posting.service.ts:1953-1963 | a document type outside the enumeration can be reversed if and only if its entry has neither a cash leg nor a line on an employee account |
| `Trace.ComputeCashFlags` | backend/src/audit/financial-movements-trace.service.ts:614-652 | the nested searches flag exactly the cash lines without a row, then the rows without a line |
| `Trace.EngineTraceIsQuietIff` | backend/src/audit/financial-movements-trace.service.ts:561-784 | after booked runs a source with its own tag never has a cash line without a row and is never unmatched; its two totals differ by the extras (legs of entries only mapped to the tag, rows brought in by category), and no row lacks a line if and only if every extra shows on a line of the source |
| `Trace.MatchedMissesIff` | backend/src/audit/financial-movements-trace.service.ts:728-749 | cashMatched departs from the promise of its comment if and only if every cash line has a row and some row no line, and then it says matched |
| `Trace.ShiftVarianceTrace` | backend/src/audit/financial-movements-trace.service.ts:561-784 | the trace of a shift closed with a variance finds the row but not the entry, says matched, and its totals differ by the variance |
| `DriftViews.OffsetAsSums` | backend/src/cash-desk/cashbox-gl-drift.helper.ts:107-142 | the per-reference keys partition the ledger: the cluster offset, with the cents its threshold hides, is the cash tagged into the cluster less the journal keyed into it |
| `DriftViews.HeaderIsExcludedLegs` | database/migrations/131_v_cashbox_drift_views_successor_guard.sql:107-160 | after booked runs the cashbox view reports exactly the legs of voided entries that were not replaced |
| `DriftViews.AdjustedIsOutsideLegs` | backend/src/cash-desk/cash-desk.service.ts:1340-1379 | after booked runs, whatever was voided, the adjusted drift is the legs of voided entries that were not replaced and lie outside the cancelled returns, with the cents the threshold hides |
| `DriftViews.CancelAwareIsExact` | backend/src/cash-desk/cash-desk.service.ts:1340-1379 | when the voids on a cashbox are its cancelled returns, nothing lies outside and the adjusted drift is zero |
| `Corrections.CorrectionsNet` | backend/src/accounting/accounting.service.ts:1862-1979 | any accepted mix of amount, cashbox and category corrections takes the old posting off and puts the new one on, account by account and box by box |
| `Corrections.AmountStep` | backend/src/chart-of-accounts/posting.service.ts:2298-2391 | the amount delta moves the old category and the old cashbox by the difference |
| `Corrections.SwapStep` | backend/src/chart-of-accounts/posting.service.ts:2475-2524 | the cashbox correction carries the whole amount from the new box back to the old |
| `Corrections.ReclassifyStep` | backend/src/chart-of-accounts/posting.service.ts:2403-2456 | the reclassification moves the whole amount between categories and no cash |
| `Corrections.FreshPostingNet` | backend/src/chart-of-accounts/financial-engine.service.ts:1114-1212 | the net effect of one cash expense posting on every account and cashbox |
| `ExpenseDesk.ExpenseService.RequestExpenseEdit` | backend/src/accounting/accounting.service.ts:1419-1505 | a request snapshots the row, and is refused for a short reason, an unknown expense, a pending request or no change |
| `ExpenseDesk.ExpenseService.CancelEditRequest` | backend/src/accounting/accounting.service.ts:1578-1600 | only the requester cancels, only a pending request, and only its status changes |
| `ExpenseDesk.ExpenseService.RejectEditRequest` | backend/src/accounting/accounting.service.ts:1602-1630 | only a pending request is declined, with a reason, and only its status changes |
| `ExpenseDesk.ExpenseService.ApplyExpenseEditCorrections` | backend/src/accounting/accounting.service.ts:1883-1979 | the corrections run in order up to the first failure, and the primary entry is the first one written |
| `ExpenseDesk.ExpenseService.ApproveEditRequest` | backend/src/accounting/accounting.service.ts:1650-1860 | row, postings and request change together or not at all |
| `ExpenseDesk.ExpenseService.CreateDailyExpense` | backend/src/accounting/accounting.service.ts:454-486 | the row and its posting are created together or not at all |
| `ExpenseRuns.ApprovalIsAdditive` | backend/src/accounting/accounting.service.ts:1757-1813 | an approval of a posted expense never falls back to a second original and never switches between cash and credit |
| `ExpenseRuns.DoKeeps` | backend/src/accounting/accounting.service.ts:1419-1860 | every operation keeps one pending request per expense, current snapshots, the original entry alive, and the books equal to the row |
| `ExpenseRuns.EditsRefineFreshPosting` | backend/src/accounting/accounting.service.ts:1650-1979 | over every run with other traffic in between, the books of a cash expense are those of one fresh posting of its current row |
| `ExpenseRuns.CreditEditMovesCashIff` | backend/src/accounting/accounting.service.ts:1781-1808 | an approved edit of a credit expense leaves every cashbox as it was if and only if it changes neither the amount nor the cashbox |
| `ExpenseRuns.CreditEditAccountsIff` | backend/src/accounting/accounting.service.ts:1781-1808 | on the accounts it turns the old posting into the new one if and only if the amount stays and both cashboxes book to one account, since the corrections credit cash where a posting credits the payable |
| `ExpenseRuns.FreshCreditNet` | backend/src/chart-of-accounts/financial-engine.service.ts:1164-1190 | a credit expense moves its amount from the payable to its category, and no cash |
| `ExpenseEdits.CreateIff` | backend/src/accounting/accounting.service.ts:454-486 | an expense is created if and only if its key is new, its category mapped, cash has a cashbox and it can be posted; where its amount then stands, from its date on |
| `ExpenseEdits.CorrectionsAcceptedIff` | backend/src/accounting/accounting.service.ts:1883-1979 | the corrections of an edit are all accepted if and only if nothing is locked, the boxes whose cash moves are watched and the other accounts are plain |
| `ExpenseEdits.ApproveIff` | backend/src/accounting/accounting.service.ts:1650-1860 | a pending request is approved if and only if its conditions, read before the call, hold; the row then has each field asked for, and no other expense or request changes |
| `ExpenseEdits.ApprovalLeaves` | backend/src/accounting/accounting.service.ts:1883-1979 | an approval appends only corrections of its request dated that day, voids nothing, and remembers the first |
| `ExpenseEdits.AmountWrites` | backend/src/chart-of-accounts/posting.service.ts:2298-2391 | the entry, lines and row of the amount delta: an increase goes out as an expense, a decrease comes back as a correction |
| `ExpenseEdits.SwapWrites` | backend/src/chart-of-accounts/posting.service.ts:2475-2524 | the lines and rows of the cashbox correction |
| `ExpenseEdits.ReclassifyWrites` | backend/src/chart-of-accounts/posting.service.ts:2403-2456 | the lines of the reclassification, without cash |
| `Approvals.ApprovalService.SpawnForExpense` | backend/src/accounting/approval.service.ts:260-285 | appends one waiting row per covering rule |
| `Approvals.SpawnedPerRule` | backend/src/accounting/approval.service.ts:266-284 | one waiting row for each rule that is active and whose bounds include the amount, in their order, at its level and for its role |
| `Approvals.ApprovalService.DecideRow` | backend/src/accounting/approval.service.ts:337-451 | decides one waiting row, posting when it was the last, and undoes everything when the posting fails |
| `Approvals.ApprovalService.SubmitExpense` | backend/src/accounting/accounting.service.ts:454-486 | spawns rows, or approves and posts at once when no rule covers the amount |
| `Approvals.ApprovalService.ApproveExpense` | backend/src/accounting/accounting.service.ts:753-785 | single-step approval sets the flag and posts, or does neither |
| `Approvals.PostedIffComplete` | backend/src/accounting/approval.service.ts:337-451 | under any interleaving an expense is posted once if all its rows are agreed, and never while one waits or is turned down |
| `Approvals.OnlyTheLastAgreementPosts` | backend/src/accounting/approval.service.ts:359-443 | the step that posts an expense with rows agrees to its last waiting row |
| `Approvals.RejectedForever` | backend/src/accounting/approval.service.ts:369-376 | a turned-down row rules the expense out in every later state |
| `Approvals.DecidedOnce` | backend/src/accounting/approval.service.ts:349-357 | rows are only appended, and a decided row never changes again |
| `Approvals.StartsSettled` | backend/src/accounting/approval.service.ts:337-451 | a workflow without expenses is settled, so the invariant holds in every state reached from there |
| `Approvals.DecideMeans` | backend/src/accounting/approval.service.ts:337-451 | a decision in full: who decided and why on its own row; a rejection clears the flag and leaves its reason; an agreement with a row still waiting does no more; the last posts the claim and sets the flag, or nothing happens |
| `Approvals.SubmitIff` | backend/src/accounting/accounting.service.ts:454-486 | a submission is taken if and only if it is new, positive, has a cashbox for cash, and a rule applies or it can be posted; it is posted exactly when no rule applies |
| `Approvals.DirectMeans` | backend/src/accounting/accounting.service.ts:753-785 | single-step approval posts and sets the flag if the flag is clear and it can be posted, and does nothing otherwise |
| `Approvals.LastAgreementIff` | backend/src/accounting/approval.service.ts:411-442 | the last agreement takes effect if and only if the expense can be posted, by conditions checkable beforehand |
| `Approvals.DirectKeepsIff` | backend/src/accounting/accounting.service.ts:753-785 | single-step approval of an unapproved expense keeps the promise of the rows if and only if the expense cannot be posted |
| `Approvals.DirectThenTurnedDown` | backend/src/accounting/accounting.service.ts:753-785 | a rejection after single-step approval clears the flag, and the expense stays posted if and only if it could be posted |
| `Approvals.RowsForgetAdvancesIff` | backend/src/accounting/approval.service.ts:417-428 | the last decision asks for the posting of the direct paths if and only if the expense is not an advance to an employee |
| `Approvals.ForgottenAdvance` | backend/src/accounting/approval.service.ts:417-428 | an advance posted by the last decision stands on its category instead of on the account of the employee, by the whole amount, and nowhere else differs |
| `Wages.WageService.Pay` | backend/src/attendance/attendance.service.ts:603-778 | the payable is read from the journal and the legs run in order, each committed on its own, up to the first failure; a settlement refused for its shift or its permission fails before it writes |
| `Wages.RefusedIff` | backend/src/attendance/attendance.service.ts:619-648 | a call reaches its postings if and only if amount, cashbox and active employee are given and the excess over what the journal owes is classified exactly when there is one; any other call gets the error of the first check it fails and leaves the books alone |
| `Wages.OwedIs` | backend/src/attendance/attendance.service.ts:564-580 | what is owed is what live entries credit the employee with on 213 and 1123, less what they debit, and never negative |
| `Wages.WageEndsWhen` | backend/src/attendance/attendance.service.ts:603-778 | paid, stopped after one leg, or stopped before the first: each has its exact condition on shift, permission, approval rules, lockdown and chart |
| `Wages.WageMoves` | backend/src/attendance/attendance.service.ts:603-778 | a paid call takes exactly its amount (less an advance kept back for approval) from its cashbox, lowers what is owed by it, raises the balance by it less a bonus that was booked first, which is charged to 521, and touches no other employee |
| `Wages.WagesDated` | backend/src/attendance/attendance.service.ts:603-778 | every entry a call leaves, paid or stopped, is live, dated that day and keyed by its leg, and no entry before it changes |
| `Wages.LegWrites` | backend/src/attendance/attendance.service.ts:670-768 | the entry, lines and row of a settlement and of an advance |
| `Wages.HalfPaidIff` | backend/src/attendance/attendance.service.ts:670-768 | a call leaves one leg without the rest if and only if a bonus is accrued to an employee owed nothing that cannot be settled (cashbox, lockdown, shift or permission), or the payable part can be settled and the advance after it is refused; what it leaves, to the cent |
| `Cleanup.DriftCleanup.VoidDuplicates` | backend/src/chart-of-accounts/drift-historical-cleanup.service.ts:249-263 | voids exactly the planned rows that are live |
| `Cleanup.DriftCleanup.PatchLines` | backend/src/chart-of-accounts/drift-historical-cleanup.service.ts:265-275 | tags exactly the planned lines that are untagged |
| `Cleanup.DriftCleanup.Execute` | backend/src/chart-of-accounts/drift-historical-cleanup.service.ts:212-333 | on the tables before it: the rows voided are exactly the later copies of live invoice sales, in one box, of a known invoice with a void entry and exactly one live one, once some group outweighs its entry; the lines tagged are exactly the lone refund credits; touched boxes agree and are rebuilt; otherwise nothing changes |
| `Cleanup.PlannedIff` | backend/src/chart-of-accounts/drift-historical-cleanup.service.ts:555-666 | the gate and the plan of pattern A, written out on the tables |
| `Cleanup.PatchIff` | backend/src/chart-of-accounts/drift-historical-cleanup.service.ts:668-706 | the plan of pattern B, written out on the tables |
| `Cleanup.CleanLeavesNothing` | backend/src/chart-of-accounts/drift-historical-cleanup.service.ts:277-288 | the self-check inside the transaction can never fail |
| `Cleanup.CleanTwice` | backend/src/chart-of-accounts/drift-historical-cleanup.service.ts:212-333 | a second run changes nothing and affects no cashbox |
| `Cleanup.KeepsTheEarliest` | backend/src/chart-of-accounts/drift-historical-cleanup.service.ts:623-666 | each planned group keeps exactly its earliest live sale row |
| `Cleanup.NothingPatchable` | backend/src/chart-of-accounts/drift-historical-cleanup.service.ts:668-706 | patching never makes another refund line patchable |
| `Cleanup.DriftAfter` | backend/src/chart-of-accounts/drift-historical-cleanup.service.ts:440-466 | the drift left is the drift before, less the cash voided, plus the refund credits tagged |
| `Cleanup.RebuildRestores` | backend/src/chart-of-accounts/reconciliation.service.ts:305-334 | after a commit with rebuild, affected balances equal the cash ledger and true ones stay true |
| `Cleanup.SettlesIff` | backend/src/chart-of-accounts/drift-historical-cleanup.service.ts:290-310 | the cleanup commits if and only if each affected box drifts beforehand by the cash the plan voids there less the credits it tags there |
| `Cleanup.SoundGroupIsVoided` | backend/src/chart-of-accounts/drift-historical-cleanup.service.ts:623-666 | two edited invoices on which the plan voids a row of a group that agrees with its entry, because the other group is detected, and nothing is committed |
| `Chart.ChartOfAccounts.CreateAccount` | backend/src/chart-of-accounts/chart-of-accounts.service.ts:91-137 | creates an account one level under its parent and of its kind, unmarking the parent as leaf, or reports the error |
| `Chart.ChartOfAccounts.UpdateAccount` | backend/src/chart-of-accounts/chart-of-accounts.service.ts:139-181 | changes activity (not of system accounts) and cashbox link only |
| `Chart.ChartOfAccounts.RemoveAccount` | backend/src/chart-of-accounts/chart-of-accounts.service.ts:183-216 | removes an account without lines or children that is not a system account |
| `Chart.CreateIff` | backend/src/chart-of-accounts/chart-of-accounts.service.ts:91-137 | which error a creation gets and when it gets none; the account it adds, field by field, and that only its parent changes |
| `Chart.UpdateIff` | backend/src/chart-of-accounts/chart-of-accounts.service.ts:139-181 | which error an update gets and when it gets none; which two fields of the one account it changes |
| `Chart.RemoveIff` | backend/src/chart-of-accounts/chart-of-accounts.service.ts:183-216 | which error a removal gets and when it gets none: system accounts, lines of any entry and children are refused in that order |
| `Chart.ForestKept` | backend/src/chart-of-accounts/chart-of-accounts.service.ts:91-216 | every run keeps parents existing, one level up, of the same kind and not leaves |
| `Chart.ChartRunsKeepInv` | backend/src/chart-of-accounts/chart-of-accounts.service.ts:91-216 | chart operations and postings in any order keep the engine invariant |
| `Chart.ChartKeepsDrift` | backend/src/chart-of-accounts/chart-of-accounts.service.ts:91-216 | no chart operation orphans a line or moves the drift of a cashbox |
| `Chart.LiquidBoxIff` | backend/src/chart-of-accounts/financial-engine.service.ts:1023-1042 | a cashbox can be posted to if and only if its linked account has a watched code or, without a link, an active account has the code of its kind |
| `Cashboxes.CashDesk.LinkOrCreateGLSubAccount` | backend/src/cash-desk/cash-desk.service.ts:215-269 | links the cashbox to a new account under 111, leaves the chart alone where the code does, and fails where the cast does |
| `Cashboxes.CashDesk.CreateCashbox` | backend/src/cash-desk/cash-desk.service.ts:730-881 | cashbox, sub-account and opening movement are created together or not at all |
| `Cashboxes.SubCodeUnwatched` | backend/src/cash-desk/cash-desk.service.ts:242-250 | a generated code has at least five characters, so the alignment guard never watches it |
| `Cashboxes.SubCodeText` | backend/src/cash-desk/cash-desk.service.ts:248-250 | a generated code is 111 and the number in decimal, a single digit with a zero before it |
| `Cashboxes.TrailingDigitsMeans` | backend/src/cash-desk/cash-desk.service.ts:244-246 | the number of a code is read from all the digits it ends in |
| `Cashboxes.NextSeqIff` | backend/src/cash-desk/cash-desk.service.ts:242-248 | a next number is found if and only if every number under the parent is below the integer range, and it is the one after the greatest |
| `Cashboxes.MakesIff` | backend/src/cash-desk/cash-desk.service.ts:215-269 | a sub-account is made if and only if none is linked, account 111 exists and the code of the next number is free; the query fails if and only if a number under 111 is out of range |
| `Cashboxes.NewBoxLiquidIff` | backend/src/cash-desk/cash-desk.service.ts:215-269 | a new cashbox can be posted to if and only if it got no sub-account and an active account has the code of its kind |
| `Cashboxes.CreateBoxIff` | backend/src/cash-desk/cash-desk.service.ts:730-881 | creation succeeds if and only if the fields are valid, the numbers under 111 are in range, and an opening balance can be posted, which needs that no sub-account is made |
| `Cashboxes.CreateBoxBooks` | backend/src/cash-desk/cash-desk.service.ts:800-881 | a created cashbox holds its opening balance, which comes in one row and one entry against 31 on the day given |
| `Cashboxes.MaxAfter` | backend/src/cash-desk/cash-desk.service.ts:245-250 | after a sub-account the next number counts from its whole code: 111 followed by the number |
| `Cashboxes.OnlyThreeCashboxes` | backend/src/cash-desk/cash-desk.service.ts:245-250 | on the seeded chart three cashboxes can be created, and the fourth fails on the range of an integer |
| `Cashboxes.CreateBoxKeeps` | backend/src/cash-desk/cash-desk.service.ts:730-881 | creating a cashbox keeps the account forest and the invariant of the engine |
| `BalanceSheet.AccountingReports.SumTree` | backend/src/chart-of-accounts/reports.service.ts:233-239 | the recursive walk overwrites every row at or below the node with its subtree total and returns it |
| `BalanceSheet.AccountingReports.MakeBalanceSheet` | backend/src/chart-of-accounts/reports.service.ts:193-278 | every row shows its roll-up, and the sheet calls itself balanced if and only if the trial balance equals what stands on parents plus twice what stands on contra leaves |
| `BalanceSheet.RootsTotalLeaves` | backend/src/chart-of-accounts/reports.service.ts:229-269 | the roots of a type total exactly its leaves |
| `BalanceSheet.ExactGap` | backend/src/chart-of-accounts/reports.service.ts:193-278 | assets less liabilities, equity and profit are the trial balance less parent nets less twice contra nets |
| `BalanceSheet.PlainSheetBalances` | backend/src/chart-of-accounts/reports.service.ts:193-278 | with lines on leaves and leaves on their own side the gap is the trial balance, within a cent per live entry |
| `BalanceSheet.CreateThenRemoveLosesLines` | database/migrations/048_chart_of_accounts.sql:66-81 | creating a child and removing it leaves the parent no leaf, and its lines out of the sheet |
| `AccountLedger.MakeStatement` | backend/src/chart-of-accounts/reports.service.ts:19-111 | against the journal itself: the opening nets the live entries before the window, each line of the account in it is shown once, by date, entry and line, with the balance so far, both totals are those of its debits and its credits, and the closing is what they add to the opening |
| `AccountLedger.StatementsChain` | backend/src/chart-of-accounts/reports.service.ts:19-111 | adjacent windows chain: closing equals opening, and lines with running balances concatenate |
| `AccountLedger.ClosesAtSheetAmount` | backend/src/chart-of-accounts/reports.service.ts:19-111 | a statement from the beginning closes at the own amount of the account on the balance sheet |
| `Movements.RegisterIsTrue` | backend/src/cash-desk/cash-desk.service.ts:2156-2303 | the rows shown pass every filter that is set, newest first from the offset on, at most two hundred unless told otherwise and never over a thousand, and each carries the balance of its own cashbox over all of its live rows so far |
| `Movements.PagesChain` | backend/src/cash-desk/cash-desk.service.ts:2228-2300 | turning the pages shows every row once |
| `Movements.BalancesStep` | backend/src/cash-desk/cash-desk.service.ts:2233-2252 | consecutive rows of a cashbox differ by the own movement of the later one |
| `Movements.NewestIsRebuilt` | backend/src/chart-of-accounts/reconciliation.service.ts:305-334 | the newest row shows what a rebuild writes |
| `Movements.FeedWithFrom` | backend/src/cash-desk/cash-desk.service.ts:2087-2110 | with a from date a balance is the full-history balance less what type and text filters hide |
| `Movements.FeedWithoutFromIff` | backend/src/cash-desk/cash-desk.service.ts:2087-2091 | without a from date a balance is right if and only if the whole history nets to what type and text filters hide, to nothing with date filters only |
| `Movements.CashOpsAre` | backend/src/cash-desk/cash-desk.service.ts:1858-1922 | the cash part of the feed is one operation for each row of the box, void or not, with its own time and signed amount |
| `Movements.FeedCountsVoids` | backend/src/cash-desk/cash-desk.service.ts:1858-1922 | the cash rows of the feed total the ledger plus everything voided |
| `Statements.StatementMatcher.AutoMatchStatement` | backend/src/cash-desk/cash-desk.service.ts:1118-1193 | the pass marks and reports as specified, its three counts are the numbers of each result and add up to the lines |
| `Statements.MatchOneMeans` | backend/src/cash-desk/cash-desk.service.ts:1145-1184 | matched means the only open row of the box, direction, amount and two days around; ambiguous means several, counted up to five; unmatched none |
| `Statements.MatchingIsInjective` | backend/src/cash-desk/cash-desk.service.ts:1118-1193 | no row is matched twice or was reconciled before, each match is of the box, direction, amount and days of its line, and only matched rows become reconciled |
| `Statements.OnlyFitIsMatched` | backend/src/cash-desk/cash-desk.service.ts:1145-1170 | the only fit of a line among the rows open before the call is matched: to that line, or to an earlier one |
| `Csv.SplitCsvLine` | scripts/migrations/_lib.js:31-59 | the character loop computes the specified cells |
| `Csv.LineRoundTrip` | scripts/migrations/_lib.js:31-59 | splitting the comma-joined escaped cells gives any non-empty list of strings back |
| `Csv.ParseCsv` | scripts/migrations/_lib.js:11-28 | the parser reads headers and records as specified |
| `Csv.PrintCsv` | scripts/migrations/export-legacy-pos.js:94-106 | the printer writes a header line and one line a record |
| `Csv.FileReads` | scripts/migrations/_lib.js:11-28 | parsing a printed file without line feeds in fields gives back headers and records, trimmed and with nothing as null, but for records that print blank |
| `Csv.FileRoundTripIff` | scripts/migrations/_lib.js:11-28 | with at least two columns the file gives its records back if and only if no field holds a line feed; any other file parses to more records than were printed |
| `Csv.HeaderColumnsIff` | scripts/migrations/export-legacy-pos.js:103-103 | headers are printed bare: the header line splits back into them if and only if none holds a comma or a quote |
| `Csv.RecordLinesIff` | scripts/migrations/_lib.js:14-14 | there is one line a record if and only if no printed line holds a line feed |
| `Csv.OneColumnKeepsIff` | scripts/migrations/_lib.js:14-14 | a file of one column parses to its records, less those that vanish (null, empty, or white space without line breaks), plus what line feeds split off: it keeps their number if and only if the two make up for each other |
| `Csv.EscMeans` | scripts/migrations/export-legacy-pos.js:97-102 | a value is quoted if and only if it holds a quote, comma or line break |
| `Csv.TrimMeans` | scripts/migrations/_lib.js:16-23 | trimming takes off all the white space at both ends and nothing else |
| `Csv.SpaceIs` | scripts/migrations/_lib.js:14-23 | which code points count as white space |
| `Csv.FieldMeans` | scripts/migrations/_lib.js:20-24 | a field is the trimmed cell of its column, or null where that is empty or missing, and the last of two columns of one name counts |
| `Csv.HeaderWord` | scripts/migrations/_lib.js:16-16 | a header without white space is lowered letter by letter |
| `Csv.HeaderParts` | scripts/migrations/_lib.js:16-16 | white space around a header is dropped, and any run of it inside becomes one underscore |
| `Csv.MarkIsDropped` | scripts/migrations/_lib.js:13-13 | a byte order mark at the start of a file is no part of it |
| `Csv.LineEnds` | scripts/migrations/_lib.js:14-14 | a line ends at a line feed, with the carriage return before it if there is one |
| `Csv.BlankLinesSkipped` | scripts/migrations/_lib.js:14-14 | blank lines are skipped wherever they stand |

## Left out

- Floating point: amounts are whole cents, and rounding to two decimals is the identity on them.
- Concurrency and locks: transactions are serial, and a failed one is rolled back by its caller.
- Party, warehouse and cost-centre tags on lines; of the tags only the cashbox and the employee are kept.
- Engine-context settings, schema probes, audit logs and entry numbers; the lockdown is one flag.
- The draft state of journal entries: every entry is posted by the transaction that creates it.
- Version-5 identifiers are taken to be injective in the request and the component they name.
- `Runs.GuardedDrift`: covers calls without accounting_only whose debits total a cent or which move
  nothing; the calls it excludes drift by what `Runs.DriftIdentity` gives.
- `DriftViews.CancelAwareIsExact`: needs the voids on the box to be cancelled returns that were not
  posted again, because the correction subtracts nothing else; `DriftViews.AdjustedIsOutsideLegs` says
  what remains for any other voids.
- `Trace.EngineTraceIsQuietIff`: covers sources that `mapToEntityType` leaves unchanged; the rows of a
  customer or supplier payment are found by category alone, as strays.
- `ExpenseRuns.EditsRefineFreshPosting`: covers expenses paid in cash and not advances, with a fixed
  category mapping and no other posting under their keys; an empty description stands for none.
- `ExpenseDesk.ExpenseService.CreateDailyExpense`: takes expenses that no approval rule covers, which are
  posted at once; the ones a rule covers wait in `Approvals.dfy`.
- `Wages.WageService.Pay`: the bonus accrual is the entry its posting procedure writes (lines 80-149 of
  migration 077), without the mirror table in between; whether the employee is active and whether an
  advance can be booked at all are read from outside the ledger; the permission to pay from a cashbox
  directly is a flag, and the shift is its status and cashbox.
- `Cashboxes.CashDesk.CreateCashbox`: of the fields only those that are validated or reach the ledger.
- `Cleanup.DriftCleanup.Execute`: plans are visited in table order, which their result does not depend on.
- `Statements.StatementMatcher.AutoMatchStatement`: runs the documented rule of two days; the query as
  written fails on every usable line.
- `Statements.MatchOneMeans`: holds of that rule; void rows are considered, as in the query.
- `Statements.MatchingIsInjective`: holds of that rule.
- `Statements.OnlyFitIsMatched`: holds of that rule.
- `Movements.RegisterIsTrue`: rows of one moment come in whatever order the database picks.
- `Movements.FeedWithFrom`: dates are points in time, a range covering whole days.
- `AccountLedger.StatementsChain`: lines of one date follow their entries' positions, which stand for entry numbers.
- `Csv.ParseCsv`: lower-casing of headers is modelled for ASCII; the round trips ask for ASCII headers.
- Partner ledgers, aging, the income statement's window and the comparison report: the same sums again.
- Journal service, depreciation and FX revaluation runs, budgets, branches, importers and the
  destructive reconciliation tools: independent of the properties above or single-branch checks.
