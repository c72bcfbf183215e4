# Verified model of the ERP backend's bookkeeping services

Dafny models of the services whose tables must agree with each other: stock and its ledger,
warehouse transfers, purchase orders and goods receipts, double-entry accounting and its
reports, quotations, sales invoices and payments, refresh-token rotation, the CSV and XML
exports, leave requests and document numbers. Each module holds

* the tables of one organisation as a value (`State`, `World`, `Books`, `Store`),
* one function per service call, and `Step`/`Run` for any sequence of calls,
* an invariant and theorems over every run,
* a law for each call that says, from its arguments, when it is accepted and what it leaves
  behind (`…Effect`),
* a class whose methods change the tables in place, loops included, each proved to do
  exactly what the call's function says, failures included.

| file | models |
|---|---|
| `Results.dfy`, `Rounding.dfy` | outcomes; exact `Math.round` of a percentage |
| `Stock.dfy` | stock rows and ledger, with atomic calls |
| `StockInterleaving.dfy`, `StockSerial.dfy` | the same calls step by step under every interleaving; why undisturbed calls are the atomic ones |
| `StockOversell.dfy`, `StockRaces.dfy` | exactly when racing calls can take a quantity below zero or break the ledger chain |
| `Transfer.dfy` | warehouse transfers |
| `Procurement.dfy` | purchase orders and goods receipts |
| `Accounting.dfy`, `AccountTree.dfy`, `Reports.dfy` | journal entries and accounts; parent accounts; trial balance, profit and loss, balance sheet |
| `Pricing.dfy`, `Quotations.dfy`, `Sales.dfy` | document totals, quotations, invoices with payments and allocations |
| `PaymentRaces.dfy` | payment requests step by step under every interleaving |
| `TokenRotation.dfy`, `TokenRaces.dfy` | refresh-token families, with atomic calls and step by step |
| `CsvExport.dfy` | the CSV and XML printers, with readers |
| `Leave.dfy`, `Numbering.dfy` | leave intervals; document numbers |

Assumptions. Money and quantities are unbounded integers (the tables hold integers) and
percentages are rounded exactly. Ids, families and random values are fresh; creation times
are strictly increasing, so positions in a sequence stand for them. Clock readings, token
lifetimes and a user's status are parameters of the calls. Quantities and amounts are
positive where the DTOs say `@Min(1)`; each `Legal` predicate lists what is asked of callers.
Service calls are atomic except in the step-by-step files `StockInterleaving.dfy`,
`StockSerial.dfy`, `StockOversell.dfy`, `StockRaces.dfy`, `PaymentRaces.dfy` and
`TokenRaces.dfy`. A service call that fails keeps whatever it had already written. The
`refunded` map of `Sales.dfy` is the refund amount in the audit log, `overwritten` of
`StockInterleaving.dfy` is a history variable, and `reverses` of `Accounting.dfy` is the
reference that `reverse` writes.

What the proofs show to be different from what one might expect of the code:

* A `complete` that fails half-way has moved a prefix of its items, stays in transit, and a
  retry moves that prefix again. A completed transfer has shipped just its items if and only
  if each refused attempt found the source short of the first item already. Cancelling it
  moves nothing back.
* Racing calls can take `availableQty` or `reservedQty` below zero: some interleaving does if
  and only if, once some of the goods received are in, the calls that then fit one by one do
  not fit together. Some interleaving breaks a row's ledger chain if and only if two of the
  calls that take from it fit.
* `adjust` overwrites what other calls did to the row between its read and its write; the
  loss over a run is the sum of exactly that.
* `transferStock` onto the same row breaks the ledger chain; only `create` keeps that apart.
* The receipt guard looks at one line at a time, so naming an order line twice over-receives.
* A draft edit that names a product twice deletes the order's lines before it is refused.
* Reversing an entry moves the posted balances by minus twice the entry: the reports read
  POSTED entries only, so they drop the original and still count its reversal.
* The balance sheet is off by the net of deactivated accounts.
* The profit-and-loss report loses `dateFrom` when `dateTo` is given too; the finance report
  does not.
* Account updates accept parent cycles although `docs/sprint-8-accounting.md` promises none:
  an update closes one if and only if the account is an ancestor of its new parent.
* VOID is not final: refunding one of several payments reopens an invoice, and so does an
  allocation of a non-positive amount, which the controller does not check, while something
  is paid or nothing is due. It is final if and only if the invoice was voided with nothing
  paid and something due.
* Racing payments can capture more than an invoice's grand total if and only if the requests
  that are accepted one by one do not fit together, and can leave a stale `amountPaid` if and
  only if two are accepted.
* Racing refreshes can leave two unrevoked tokens in a family if and only if two acceptable
  requests present the same token. A revocation of the family is outrun if and only if an
  acceptable request of the family runs beside it.
* Reordering a draft addresses items by id alone, so it moves items of other quotations too,
  sent ones included; `displayOrder` is not part of the frozen offer.
* A fixed header discount above the subtotal is accepted; the taxable amount is then clamped.
* The leave service logs one day too many for a request that ends later in the day than it
  started.

## Model

| member | source | states |
|---|---|---|
| Stock.RunReconciled | src/inventory/stock/stock.service.ts:237-547 | In every atomic run each key's ledger is a chain from 0 that ends in availableQty, reservedQty is minus the sum of holds, neither is negative, and availableQty is the sum of the ledger |
| Stock.ApplyReconciled | src/inventory/stock/stock.service.ts:237-547 | Every single movement keeps that agreement, refused ones included |
| Stock.ReserveEffect | src/inventory/stock/stock.service.ts:237-284 | reserve is accepted iff the quantity is available; it moves it to reservedQty with one RESERVATION entry, and a refusal moves nothing |
| Stock.ReleaseEffect | src/inventory/stock/stock.service.ts:286-333 | release is accepted iff the quantity is reserved; it moves it back with one RELEASE entry |
| Stock.IncreaseEffect | src/inventory/stock/stock.service.ts:335-382 | increase always adds to availableQty with one PURCHASE entry |
| Stock.DecreaseEffect | src/inventory/stock/stock.service.ts:384-437 | decrease is accepted iff the quantity is available; it takes it with one SALE entry |
| Stock.AdjustEffect | src/inventory/stock/stock.service.ts:439-485 | adjust, up or down, is accepted iff the result is not negative; it adds the quantity with one ADJUSTMENT entry |
| Stock.TransferEffect | src/inventory/stock/stock.service.ts:487-547 | transferStock between two warehouses is accepted iff the source has the quantity; it moves it with one entry for each row, and no other row changes |
| Stock.TransferKeepsChainIffDistinct | src/inventory/stock/stock.service.ts:487-547 | A successful transferStock keeps the ledger chain if and only if the two warehouses differ |
| Stock.StockService.GetOrCreateStock | src/inventory/stock/stock.service.ts:97-118 | Opens a zero row only when there is none |
| Stock.StockService.Reserve | src/inventory/stock/stock.service.ts:237-284 | The in-place steps are the specified movement; a refusal still leaves the opened row |
| Stock.StockService.Release | src/inventory/stock/stock.service.ts:286-333 | As specified, guarded by reservedQty |
| Stock.StockService.Increase | src/inventory/stock/stock.service.ts:335-382 | As specified, never refused |
| Stock.StockService.Decrease | src/inventory/stock/stock.service.ts:384-437 | As specified, guarded by availableQty |
| Stock.StockService.Adjust | src/inventory/stock/stock.service.ts:439-485 | As specified, guarded by the resulting quantity |
| Stock.StockService.Transfer | src/inventory/stock/stock.service.ts:487-547 | The two updates, the re-read and the two ledger entries are the specified transfer |
| StockInterleaving.EveryInterleavingAccounted | src/inventory/stock/stock.service.ts:237-547 | Under every interleaving of the read, update and log steps of any calls, the change of each key is the new ledger quantities plus exactly the updates not yet logged, minus what adjust has overwritten; likewise reservedQty |
| StockInterleaving.SingleReads | src/inventory/stock/stock.service.ts:237-247 | The read step notes availableQty and evaluates the guard on the row |
| StockInterleaving.SingleWrites | src/inventory/stock/stock.service.ts:249-255 | The write step moves the row as it is then, and notes what is left; only adjust writes what it has read plus its quantity |
| StockInterleaving.SingleLogs | src/inventory/stock/stock.service.ts:257-268 | The log step appends the noted quantities |
| StockInterleaving.TransferSteps | src/inventory/stock/stock.service.ts:496-546 | The reads and log entries of transferStock |
| StockInterleaving.TransferWriteSteps | src/inventory/stock/stock.service.ts:505-514 | Its two relative updates, in either order |
| StockInterleaving.InterleavedCallsAgreeWithLedger | src/inventory/stock/stock.service.ts:237-437 | Once all calls have returned, a key that none of them adjusts has changed by exactly what the ledger says, under every interleaving |
| StockInterleaving.LossIsWhatFellIntoAdjustWindows | src/inventory/stock/stock.service.ts:439-467 | With adjust, stock falls short of the ledger at the end by exactly what other calls did to the key between the read and the write of each adjust |
| StockInterleaving.UndisturbedAdjustsAgree | src/inventory/stock/stock.service.ts:439-467 | If no other call moves the key between the read and the write of an adjust, stock and ledger agree |
| StockInterleaving.OneAdjustAgreesIffWindowNetsZero | src/inventory/stock/stock.service.ts:439-467 | With one adjust of the key, they agree iff what the other calls did to it between its read and its write sums to zero |
| StockOversell.NeverNegativeIff | src/inventory/stock/stock.service.ts:237-437 | For any calls that take from a row, receive goods into it or leave it alone, no interleaving takes the quantity below zero iff, whichever of the receipts are already in, the calls that each fit then also fit together |
| StockOversell.NeverOversellsIffDemandFits | src/inventory/stock/stock.service.ts:237-265 | For calls that only subtract from availableQty: iff the calls that each fit on their own also fit together |
| StockOversell.NeverOverReleasesIffDemandFits | src/inventory/stock/stock.service.ts:286-302 | Likewise for reservedQty and releases that race, beside any calls that do not reserve the row |
| StockRaces.ChainKeptIffAtMostOneFits | src/inventory/stock/stock.service.ts:237-437 | For calls that only subtract from a row, its ledger entries stay a chain under every interleaving iff at most one of them fits |
| StockRaces.LedgerChainKeptIffAtMostOneFits | src/inventory/stock/stock.service.ts:237-437 | Reserves and decreases of any rows keep the whole ledger a chain under every interleaving iff on each row at most one of them fits |
| StockRaces.AdjustCanOverwriteAnIncrease | src/inventory/stock/stock.service.ts:450-453 | A schedule from reconciled books in which adjust loses an increase of 5 |
| StockRaces.ReservesCanOversell | src/inventory/stock/stock.service.ts:237-265 | A schedule from reconciled books in which two reserves of the last unit both succeed, leave -1 and break the chain |
| StockSerial.UndisturbedSingleIsApply | src/inventory/stock/stock.service.ts:237-485 | The steps of a call run without a break are the atomic call |
| StockSerial.UndisturbedTransferIsApply | src/inventory/stock/stock.service.ts:487-547 | Likewise for transferStock, whichever of its two concurrent updates is first |
| StockSerial.OneByOneIsAtomic | src/inventory/stock/stock.service.ts:237-547 | A schedule made of whole calls, in any order, is the atomic run of those calls |
| StockSerial.SerialSchedulesStayReconciled | src/inventory/stock/stock.service.ts:237-547 | Hence such a schedule keeps stock and ledger reconciled |
| Transfer.MovesAllIffCovered | src/inventory/transfer/transfer.service.ts:186-196 | The item loop gets through all items if and only if, product by product, the source held the summed quantity at the start |
| Transfer.MovesExactlyPrefix | src/inventory/transfer/transfer.service.ts:186-196 | Exactly the moved prefix leaves the source and reaches the target; every other row and all reserved quantities are untouched |
| Transfer.MoveAllConserves | src/inventory/transfer/transfer.service.ts:186-196 | Finished or refused, the organisation's total of every product is unchanged |
| Transfer.MoveAllReconciled | src/inventory/transfer/transfer.service.ts:186-196 | Finished or refused, the ledger chain is kept |
| Transfer.CompleteOutcome | src/inventory/transfer/transfer.service.ts:175-229 | complete on a transfer in transit succeeds iff covered; otherwise a proper prefix is shipped and the transfer stays in transit |
| Transfer.CreateEffect | src/inventory/transfer/transfer.service.ts:41-90 | create succeeds iff the warehouses differ and are known and the products are distinct; it stores exactly the requested source, target and items as a draft and changes nothing else |
| Transfer.ApproveEffect | src/inventory/transfer/transfer.service.ts:143-173 | approve takes a draft, and only a draft, into transit |
| Transfer.CancelEffect | src/inventory/transfer/transfer.service.ts:231-269 | cancel is possible until completion and changes the status only |
| Transfer.CompleteEffect | src/inventory/transfer/transfer.service.ts:175-229 | A completed transfer has taken each product from its source to its target, in the summed quantity, and touched no other row |
| Transfer.CompleteRefusals | src/inventory/transfer/transfer.service.ts:175-202 | complete refuses unknown transfers and those not in transit, and a refusal leaves every document as it was |
| Transfer.RequestIsDelivered | src/inventory/transfer/transfer.service.ts:41-229 | Create, approve and complete together move what was requested from the warehouse requested as source to the one requested as target |
| Transfer.RetryMovesPrefixAgain | src/inventory/transfer/transfer.service.ts:175-229 | After a failed complete and any other movements, a successful retry has shipped the prefix twice |
| Transfer.RunValid | src/inventory/transfer/transfer.service.ts:41-270 | In every run stock stays reconciled, drafts have shipped nothing, completed transfers at least their items |
| Transfer.RunShipsExactly | src/inventory/transfer/transfer.service.ts:175-229 | Over every run a transfer ships exactly what its refused attempts moved, plus its items once when it is completed |
| Transfer.CompletedShipsItemsIffRefusedAtFirstItem | src/inventory/transfer/transfer.service.ts:175-229 | A new transfer that ends completed has shipped exactly its items, of every product, iff each refused attempt found the source short of the first item; the order of the items, which the query at line 182 leaves open, is a parameter |
| Transfer.CompletedShipsItemsIffNothingWasted | src/inventory/transfer/transfer.service.ts:175-229 | Product by product: iff its refused attempts moved nothing of it |
| Transfer.NothingWastedIffFirstItemShort | src/inventory/transfer/transfer.service.ts:175-202 | A refused attempt moves nothing iff the source is short of the first item |
| Transfer.RetryCanShipTwice | src/inventory/transfer/transfer.service.ts:175-229 | A transfer of one unit each of two products, refused for the second and then retried, ships two units of the first |
| Transfer.TransferService.Complete | src/inventory/transfer/transfer.service.ts:175-229 | The loop over transferStock and the status update are the specified call |
| Transfer.TransferService.Create | src/inventory/transfer/transfer.service.ts:41-90 | Refuses equal or unknown warehouses and repeated products, otherwise adds a draft |
| Procurement.RunValid | src/procurement/goods-receipt/goods-receipt.service.ts:49-165 | In every run receivedQuantity, the goods-receipt lines and the PURCHASE ledger entries of each order agree, the order status tells how much has arrived, and no receipt can be cancelled |
| Procurement.ReceiveAgrees | src/procurement/goods-receipt/goods-receipt.service.ts:81-153 | A receipt, accepted or not, keeps the three records of every order in agreement |
| Procurement.ReceiveAcceptedIff | src/procurement/goods-receipt/goods-receipt.service.ts:49-79 | A receipt is accepted iff the order is neither draft nor cancelled, the warehouse is known, and each line names an order line of its product with no more than is open on it |
| Procurement.ValidateFirstError | src/procurement/goods-receipt/goods-receipt.service.ts:65-76 | Otherwise the first unfitting line decides the error |
| Procurement.ReceiveEffect | src/procurement/goods-receipt/goods-receipt.service.ts:81-153 | An accepted receipt adds the summed quantities to the warehouse it names and nowhere else, counts them on the order lines it names, and records its lines with their costs |
| Procurement.CancelReceiptEffect | src/procurement/goods-receipt/goods-receipt.service.ts:220-252 | Only a draft receipt is cancelled |
| Procurement.CreateOrderEffect | src/procurement/purchase-orders/purchase-orders.service.ts:64-119 | create succeeds iff vendor and warehouse are known and products distinct; it stores a draft of exactly what was asked for, with its totals |
| Procurement.UpdateOrderEffect | src/procurement/purchase-orders/purchase-orders.service.ts:184-259 | update of a draft replaces what it was given and keeps the rest |
| Procurement.ApproveOrCancelEffect | src/procurement/purchase-orders/purchase-orders.service.ts:261-317 | approve takes drafts and sent orders, cancel all that are neither received nor cancelled; both change the status only |
| Procurement.DuplicateOrderEffect | src/procurement/purchase-orders/purchase-orders.service.ts:319-361 | A duplicate is a draft of the same lines with nothing received |
| Procurement.TaxWithinHalfPerLine | src/procurement/purchase-orders/purchase-orders.service.ts:48-62 | grandTotal is subtotal plus tax, and the tax is within half a unit per line of the exact one |
| Procurement.RunNothingOver | src/procurement/goods-receipt/goods-receipt.service.ts:134-150 | If no receipt names an order line twice, receivedQuantity never exceeds quantity, and RECEIVED, PARTIALLY_RECEIVED and the other states say exactly full, part, nothing |
| Procurement.StaysWithinIffSumsFit | src/procurement/goods-receipt/goods-receipt.service.ts:65-76 | An accepted receipt over-receives nothing iff its summed quantity per order line fits what remains |
| Procurement.TwoMentionsCanOverReceive | src/procurement/goods-receipt/goods-receipt.service.ts:65-76 | Naming a line of 10 twice with 6 is accepted and receives 12 |
| Procurement.RunTotalsAgree | src/procurement/purchase-orders/purchase-orders.service.ts:48-62 | Stored order totals are those of the order lines in every run whose draft edits name each product once |
| Procurement.RefusedEditAgreesIffTotalsZero | src/procurement/purchase-orders/purchase-orders.service.ts:184-243 | An edit that repeats a product changes nothing if its vendor or warehouse is unknown, and otherwise leaves the draft without lines; its totals then agree iff they were zero |
| Procurement.ProcurementService.CalculateTotals | src/procurement/purchase-orders/purchase-orders.service.ts:48-62 | The running sums are the sums of line totals and of rounded line taxes |
| Procurement.ProcurementService.ValidateLines | src/procurement/goods-receipt/goods-receipt.service.ts:65-76 | The loop reports the first unknown line, product mismatch or excess |
| Procurement.ProcurementService.ReceiveLines | src/procurement/goods-receipt/goods-receipt.service.ts:104-132 | The receiving loop updates order lines and stock as specified and writes each cost to the first receipt line of its order line |
| Procurement.ProcurementService.ReceiveGoods | src/procurement/goods-receipt/goods-receipt.service.ts:49-165 | create is the specified call, errors included |
| Procurement.ProcurementService.Update | src/procurement/purchase-orders/purchase-orders.service.ts:184-259 | update is the specified call, including the lines deleted before a refusal |
| Accounting.RunValid | src/accounting/journal-entries/journal-entries.service.ts:45-105 | In every run all entries, reversals of reversals included, are balanced and on existing accounts |
| Accounting.CreateEntryEffect | src/accounting/journal-entries/journal-entries.service.ts:57-105 | create succeeds iff the lines are double entry on known, active accounts; it adds one draft with exactly the given date and lines |
| Accounting.CheckAccountsFirstError | src/accounting/journal-entries/journal-entries.service.ts:60-75 | Otherwise the first unusable account decides the error |
| Accounting.CreateThenPostBooksLines | src/accounting/journal-entries/journal-entries.service.ts:57-189 | Creating and posting moves every account's posted net by what the requested lines say |
| Accounting.PostEffect | src/accounting/journal-entries/journal-entries.service.ts:164-189 | post takes a draft, and only a draft, to POSTED and changes nothing else |
| Accounting.ReverseEffect | src/accounting/journal-entries/journal-entries.service.ts:191-244 | reverse marks a posted entry and posts, on the day, its lines with debit and credit exchanged |
| Accounting.CreateAccountEffect | src/accounting/chart-of-accounts/chart-of-accounts.service.ts:46-80 | create succeeds iff the code is free and the parent exists, and adds the account |
| Accounting.UpdateAccountEffect | src/accounting/chart-of-accounts/chart-of-accounts.service.ts:137-180 | update replaces the given fields of the one account |
| Accounting.DeleteAccountEffect | src/accounting/chart-of-accounts/chart-of-accounts.service.ts:182-207 | delete spares system accounts and parents; used accounts are deactivated, unused ones go, all others stay |
| Accounting.ReverseMovesNets | src/accounting/journal-entries/journal-entries.service.ts:191-244 | reverse takes the entry out of every account's POSTED-plus-REVERSED net and moves the POSTED-only net by minus twice the entry |
| Accounting.PostThenReverseRestoresIffNoNet | src/accounting/journal-entries/journal-entries.service.ts:164-244 | Posting and reversing restores an account's posted balance iff the entry has no net on it |
| Accounting.RunStands | src/accounting/journal-entries/journal-entries.service.ts:164-244 | In every run an account's POSTED-plus-REVERSED net is the net of the posted entries undone an even number of times |
| AccountTree.UpdateStaysAcyclicIff | src/accounting/chart-of-accounts/chart-of-accounts.service.ts:155-163 | From acyclic parent links, an accepted update leaves them acyclic iff the account is neither its new parent nor one of that parent's ancestors |
| AccountTree.StepKeepsTreeIff | src/accounting/chart-of-accounts/chart-of-accounts.service.ts:46-207 | No other call, creation and deletion included, ever closes a cycle or leaves a parent dangling |
| AccountTree.RunKeepsTree | src/accounting/chart-of-accounts/chart-of-accounts.service.ts:46-207 | Every run without such an update keeps the accounts a forest |
| AccountTree.ParentCycleAccepted | src/accounting/chart-of-accounts/chart-of-accounts.service.ts:155-163 | A tree of two accounts that one accepted update turns into a cycle |
| Accounting.AccountingService.ValidateLines | src/accounting/journal-entries/journal-entries.service.ts:45-55 | The reduces accept exactly balanced lines with an amount and no line on both sides |
| Accounting.AccountingService.CreateJournalEntry | src/accounting/journal-entries/journal-entries.service.ts:57-105 | Drafts an entry only on known, active accounts; the first unusable one decides the error |
| Accounting.AccountingService.ReverseEntry | src/accounting/journal-entries/journal-entries.service.ts:191-244 | Adds the swapped, posted reversal and marks the original REVERSED |
| Accounting.AccountingService.Delete | src/accounting/chart-of-accounts/chart-of-accounts.service.ts:182-207 | Deletes an account without lines, deactivates one with lines |
| Reports.RowsRegroupLines | src/accounting/reports/reports.service.ts:65-99 | The per-account rows regroup the posted lines without loss |
| Reports.TrialBalanceBalances | src/accounting/reports/reports.service.ts:50-108 | Total debit equals total credit in every reachable state at every date |
| Reports.BalanceRulesAgreeIffKnownType | src/reports/services/finance-reports.service.ts:87-92 | The switch of the accounting copies and the membership test of the finance copy give the same balances exactly on the five account types |
| Reports.TrialBalanceCopiesAgreeIff | src/reports/services/finance-reports.service.ts:62-98 | The row sequences of the accounting and finance copies are equal iff every account with an open balance has one of the five types |
| Reports.TrialBalanceCopiesAgree | src/accounting/journal-entries/journal-entries.service.ts:294-346 | On the accounts of the books all three copies give the same row sequence |
| Reports.BalanceSheetGap | src/accounting/reports/reports.service.ts:110-163 | In every reachable state and at every date, assets minus liabilities, equity and net income is minus the net debit of inactive accounts; the sheet balances iff those net to zero |
| Reports.SheetFigures | src/accounting/reports/reports.service.ts:110-163 | Each figure of the balance sheet is a sum over the posted lines on active accounts of its type: assets debit less credit, liabilities and equity credit less debit, net income revenue less expense |
| Reports.ProfitFigure | src/accounting/reports/reports.service.ts:165-230 | Net profit is revenue less expense over the lines of the window |
| Reports.TrialBalanceRows | src/accounting/reports/reports.service.ts:65-99 | There is a row exactly for each account with posted lines, with the sums of its debits and credits and their difference signed by its type |
| Reports.PostedLinesOfNewEntry | src/accounting/reports/reports.service.ts:51-61 | A report reads an entry's lines exactly if it is posted and dated in the window |
| Reports.DeactivationMovesGap | src/accounting/chart-of-accounts/chart-of-accounts.service.ts:182-202 | Deleting, that is deactivating, an active account that has lines moves assets minus liabilities, equity and net income by minus its net debit, at every date |
| Reports.DeactivationUnbalances | src/accounting/chart-of-accounts/chart-of-accounts.service.ts:182-202 | Valid books with one posted entry whose sheet becomes unbalanced this way |
| Reports.ProfitReportsAgreeIff | src/accounting/reports/reports.service.ts:175-185 | The two profit-and-loss reports agree iff at most one date is given or nothing was earned before dateFrom |
| Reports.AccountBalanceIsItsRow | src/accounting/chart-of-accounts/chart-of-accounts.service.ts:209-239 | getAccountBalance is the account's row of the undated trial balance |
| Reports.ReportsService.GroupByAccount | src/accounting/reports/reports.service.ts:65-80 | The Map loop holds, per account and in order of first occurrence, the sums of its lines |
| Reports.ReportsService.GetTrialBalance | src/accounting/reports/reports.service.ts:50-108 | Returns those rows, and totals equal to the sums over all posted lines up to the date |
| Reports.ReportsService.GetBalanceSheet | src/accounting/reports/reports.service.ts:110-163 | Looking balances up in the trial balance gives each listed account its own balance, and the five totals |
| Reports.ReportsService.GetProfitAndLoss | src/accounting/reports/reports.service.ts:165-230 | Net profit over the window in which dateTo has overwritten dateFrom |
| Pricing.TotalsOfPermutation | src/sales/pricing.service.ts:61-93 | Totals depend only on the multiset of items |
| Pricing.LineFigures | src/sales/pricing.service.ts:43-59 | lineTotal is quantity times price; discount and tax are rounded half up, the tax on what the discount leaves; the net is all three together |
| Pricing.HeaderDiscountFigure | src/sales/pricing.service.ts:70-75 | A positive header value is a rounded percentage of the subtotal or a fixed amount, by its type; otherwise there is none |
| Pricing.DocumentFigures | src/sales/pricing.service.ts:61-93 | subtotal is the gross sum, taxAmount the line taxes; discountAmount, taxableAmount and grandTotal are the exact figures or zero if those are negative |
| Pricing.OrdinaryTotals | src/sales/pricing.service.ts:43-93 | With item discounts up to 100% and no header discount no clamp acts, grandTotal is the line nets plus shipping, and discount and tax are within half a unit per line of the exact ones |
| Pricing.ClampsActIff | src/sales/pricing.service.ts:61-93 | On everything the DTOs allow discountAmount is never clamped, taxableAmount is iff the header discount exceeds what the item discounts leave of the subtotal, and grandTotal iff it exceeds the line nets plus shipping |
| Pricing.GrandTotalClampedOnlyAfterTaxable | src/sales/pricing.service.ts:61-93 | With item discounts up to 100% the grand total is exact whenever the taxable amount is |
| Quotations.RunValid | src/sales/quotation.service.ts:110-153 | In every reachable state the stored totals are calculateSummary of the stored items and header, and lineTotal is quantity times price |
| Quotations.CreateEffect | src/sales/quotation.service.ts:164-243 | create stores a draft of exactly the header and items that were asked for, with their totals |
| Quotations.UpdateEffect | src/sales/quotation.service.ts:309-390 | update of a draft replaces the given header fields and, if any are given, all items |
| Quotations.AddItemEffect | src/sales/quotation.service.ts:668-717 | addItem appends the item, last in display order |
| Quotations.UpdateItemEffect | src/sales/quotation.service.ts:719-775 | updateItem replaces the given fields of the one item |
| Quotations.DeleteItemEffect | src/sales/quotation.service.ts:777-807 | deleteItem removes the one item |
| Quotations.ReorderEffect | src/sales/quotation.service.ts:809-841 | reorderItems changes display orders only, of any quotation's items |
| Quotations.MoveEffect | src/sales/quotation.service.ts:13-32 | The transition table, read by its targets |
| Quotations.ArchiveEffects | src/sales/quotation.service.ts:394-446 | archive, delete and restore |
| Quotations.DuplicateEffect | src/sales/quotation.service.ts:586-666 | A duplicate is a new draft with the same header, products and lines |
| Quotations.EditHistoryDoesNotMatter | src/sales/quotation.service.ts:668-828 | Any two edit histories that end in the same header and multiset of lines give the same totals as building the quotation afresh |
| Quotations.SentOffersAreFrozen | src/sales/quotation.service.ts:13-32 | Once a quotation has left DRAFT no run changes its header, lines or totals |
| Quotations.QuotationService.UpdateQuotation | src/sales/quotation.service.ts:309-390 | Header patch, replaced items and recalculation are the specified edit |
| Quotations.QuotationService.UpdateQuotationItem | src/sales/quotation.service.ts:719-775 | Patches one item, keeping unset fields, and recalculates |
| Sales.RunValid | src/payments/payments.service.ts:79-124 | In every run amountPaid is the sum of the CAPTURED payments and at most grandTotal, balanceDue is the difference, paymentStatus and status fit, and the totals are those of the items |
| Sales.CreateEffect | src/invoices/invoices.service.ts:161-240 | create stores a draft of exactly the items and shipping that were asked for, all of it due |
| Sales.UpdateEffect | src/invoices/invoices.service.ts:414-496 | update of a draft replaces the given shipping and items |
| Sales.DuplicateEffect | src/invoices/invoices.service.ts:498-578 | A duplicate is a new draft of the same items, unpaid |
| Sales.TransitionEffects | src/invoices/invoices.service.ts:580-650 | send takes drafts; everything but a voided invoice can be voided |
| Sales.AllowedByTarget | src/invoices/invoices.service.ts:13-28 | The transition table, read by its targets |
| Sales.ArchiveEffects | src/invoices/invoices.service.ts:652-698 | archive spares sent and viewed invoices; delete and restore |
| Sales.InvoiceFigures | src/invoices/invoices.service.ts:104-146 | The totals of an invoice: gross, line discounts, line taxes and shipping |
| Sales.PayEffect | src/payments/payments.service.ts:128-210 | A payment is accepted on a live, unvoided invoice up to balanceDue; it is recorded as asked for, allocated in full, and counted; what is then due decides both statuses |
| Sales.GatewayEffect | src/payments/payments.service.ts:212-265 | A gateway capture is such a payment, if its transaction has not been seen |
| Sales.AllocateEffect | src/payments/payments.service.ts:306-343 | An allocation is accepted up to what is left of a captured payment, and recorded |
| Sales.RefundEffect | src/payments/payments.service.ts:369-427 | A refund of up to the amount ends the whole payment; the part asked for, or all, is recorded and taken off its allocation; what is still paid decides both statuses |
| Sales.PayAgrees | src/payments/payments.service.ts:128-265 | A manual or gateway payment, accepted or refused, keeps every invoice in agreement |
| Sales.RefundAgrees | src/payments/payments.service.ts:369-405 | A refund keeps every invoice in agreement |
| Sales.StepKeepsVoidIff | src/payments/payments.service.ts:95-113 | A voided invoice stays VOID under a call iff the call is neither a refund of one of several of its payments nor an accepted allocation to it while something is paid or nothing is due |
| Sales.RunStaysVoidIff | src/payments/payments.service.ts:95-113 | Over every run it stays VOID throughout iff no such call is made |
| Sales.VoidIsFinalIff | src/payments/payments.service.ts:95-113 | VOID is final in every run that may follow iff the invoice was voided with nothing paid and something due |
| Sales.AllocateRefusesIffPositive | src/payments/payments.service.ts:306-336 | For a captured payment allocate is refused iff the amount asked for is positive |
| Sales.RunFullyAllocated | src/payments/payments.service.ts:375-405 | With positive requests every captured payment stays fully allocated, and an invoice's allocations exceed amountPaid by exactly the unrefunded rest of its refunded payments |
| PaymentRaces.NeverOverpaidIffDemandFits | src/payments/payments.service.ts:128-172 | For any payment requests in any interleaving of their read, create, allocate, sum and write steps, captured payments never exceed the grand total iff the requests that are each accepted also fit together |
| PaymentRaces.AmountPaidKeptIffAtMostOneFits | src/payments/payments.service.ts:79-124 | Once all requests have returned, the stored amountPaid is the captured sum under every interleaving iff at most one request is accepted |
| PaymentRaces.SumAndWriteSteps | src/payments/payments.service.ts:79-124 | The sum is taken from the payments as they are then; the later write changes the four computed columns only |
| PaymentRaces.UndisturbedIsAtomic | src/payments/payments.service.ts:128-172 | The five steps of an undisturbed request are the atomic payment |
| Sales.SalesService.UpdateInvoicePaymentStatus | src/payments/payments.service.ts:79-124 | The reduce and the branches write what is specified from the payments |
| Sales.SalesService.RefundPayment | src/payments/payments.service.ts:369-427 | The sequence of updates is the specified refund of the newest allocation |
| Sales.SalesService.Update | src/invoices/invoices.service.ts:414-495 | Only drafts are rewritten, with totals and balanceDue recomputed |
| TokenRotation.RunValid | src/auth/auth.service.ts:304-373 | In every run of login, refresh and logout each family is one path linked by replacedByTokenId in creation order, with at most its last token unrevoked |
| TokenRotation.LoginEffect | src/auth/auth.service.ts:439-471 | With good credentials, login opens a session of the user and the first token of a new family, with a full lifetime |
| TokenRotation.RefreshEffect | src/auth/auth.service.ts:304-373 | A rotation revokes and links the one token and issues its successor in the same session and family with a full lifetime; a revoked token ends its family; any other refusal changes nothing |
| TokenRotation.LogoutEffect | src/auth/auth.service.ts:279-302 | logout revokes exactly the session if it is the user's, the tokens of the session, and the presented token's family |
| TokenRotation.DeadFamilyNeverRefreshes | src/auth/auth.service.ts:304-373 | Once no token of a family is unrevoked, no later refresh in it succeeds |
| TokenRotation.TokenWorksOnce | src/auth/auth.service.ts:304-373 | A token refreshes at most once; presenting it again at any later time ends its family for good |
| TokenRotation.RefreshSucceedsIff | src/auth/auth.service.ts:330-350 | refresh succeeds iff the token is the unrevoked, unexpired last of its family, its session is live and the user active |
| TokenRotation.LogoutKillsFamily | src/auth/auth.service.ts:279-302 | Logging out with a token, or from its session, ends its family |
| TokenRaces.OneLiveTokenIffTokensDiffer | src/auth/auth.service.ts:304-373 | For any refresh requests in any interleaving of their read and rotate or revoke steps, every family keeps at most one unrevoked token iff no two acceptable requests present the same token |
| TokenRaces.ReuseKillsFamilyIffNoneAccepted | src/auth/auth.service.ts:304-373 | When a revoked token is presented, its family is dead once all requests have returned, under every interleaving, iff no acceptable request of the family runs beside it |
| TokenRaces.UndisturbedIsAtomic | src/auth/auth.service.ts:304-373 | The two steps of an undisturbed request are the atomic refresh |
| TokenRotation.AuthService.RefreshToken | src/auth/auth.service.ts:304-373 | The checks in order, family revocation on reuse, and the two writes of a rotation |
| TokenRotation.AuthService.RevokeTokenFamily | src/auth/auth.service.ts:473-478 | Revokes exactly the tokens of the family |
| CsvExport.CsvReadsBackIffHeadersPlain | src/reports/services/export.service.ts:5-18 | A reader by section 2 of RFC 4180 with LF records recovers every cell text of a non-empty table iff there is a column and no header holds a comma, quote or newline |
| CsvExport.CsvInjective | src/reports/services/export.service.ts:5-18 | Under the same plain headers, exports of different cell texts are different |
| CsvExport.TableOfRecords | src/reports/services/export.service.ts:5-17 | The headers are the given columns or the keys of the first record; each cell is the text of the record's entry for the header, or empty |
| CsvExport.QuotedIffSpecial | src/reports/services/export.service.ts:8-14 | A field is quoted exactly if it holds a comma, a quote or a newline |
| CsvExport.TableReadsBack | src/reports/services/export.service.ts:8-17 | Every table printed with escaped fields is read back |
| CsvExport.TableCost | src/reports/services/export.service.ts:8-17 | No text that reads as a table is shorter than its escaped printing |
| CsvExport.XmlCellsReadBack | src/reports/services/export.service.ts:22-30 | Any row of cells is read back from its XML |
| Leave.RunDisjoint | src/hrms/leave/leave.service.ts:38-81 | Each employee's PENDING and APPROVED requests stay pairwise disjoint in every run |
| Leave.ApplyEffect | src/hrms/leave/leave.service.ts:38-81 | apply is accepted iff the employee is known, the period is not reversed, and it shares no instant with a pending or approved request of the employee; it is stored as asked for, pending |
| Leave.DecisionEffects | src/hrms/leave/leave.service.ts:124-164 | approve and reject decide pending requests only |
| Leave.RunCountsDays | src/hrms/leave/leave.service.ts:74-77 | With whole-day dates the logged days add up to the number of distinct days covered |
| Leave.LoggedIsCoveredIffTidy | src/hrms/leave/leave.service.ts:74-77 | In general logged days never undercount, and match iff no request ends later in the day than it started and no two touch one day |
| Leave.LoggedDaysAreTouchedIff | src/hrms/leave/leave.service.ts:74-77 | For one request the figure is the days touched, or one more iff it ends later in the day than it started |
| Leave.LeaveService.ApplyForLeave | src/hrms/leave/leave.service.ts:38-81 | The checks in order and the new pending request |
| Numbering.RunNumbered | src/billing/invoice.service.ts:192-216 | In every run the k-th billing invoice of a month gets sequence k, at every size, and no two numbers are equal |
| Numbering.BillingNumberReads | src/billing/invoice.service.ts:192-216 | A number is INV, the month as YYYYMM and at least four digits of the sequence |
| Numbering.BillingEffects | src/billing/invoice.service.ts:174-216 | create adds one row with the month's next number; soft-delete marks one row and keeps its number |
| Numbering.ParsePadded | src/billing/invoice.service.ts:209-215 | parseInt undoes zero-padded printing for every number and width |
| Numbering.ParsesLeadingDigits | src/billing/invoice.service.ts:209-215 | parseInt reads the leading digits only, and is NaN exactly if there is none |
| Numbering.PrefixMatchesIffSameMonth | src/billing/invoice.service.ts:197-204 | startsWith finds exactly the numbers of the month |
| Numbering.CountedRunDistinct | src/invoices/invoices.service.ts:80-85 | Numbers made from the count of all rows are distinct in every run of create and soft-delete |
| Numbering.CountedNumberReads | src/invoices/invoices.service.ts:80-85 | A count-based number is its head and the count plus one, padded to the width |
| Numbering.CountedEffects | src/sales/quotation.service.ts:87-92 | Each new row is numbered from the count of all rows; soft-delete keeps the number |
| Numbering.BillingInvoiceService.GenerateInvoiceNumber | src/billing/invoice.service.ts:192-216 | On rows it has numbered itself, the query, split, parse and print give the count of the month's rows, deleted ones included, plus one |

## Left out

- Numbering.CountedRunDistinct: covers quotation, purchase-order, goods-receipt and journal numbers by one head and width; each service's own prefix is a value of the head.
- Controllers, DTO validation, guards, audit logs, timelines, searches and pagination: wiring and record-keeping; DTO bounds appear as the `Legal` predicates.
- More than one organisation: every query is scoped by organisation, so one is modelled; the stock row key is (warehouse, product).
- Interleaving of services other than stock movements, payments and refreshes, and failure between two writes of one call: calls are atomic there. `goodsReceipt.create` calls `stock.increase` outside its transaction, which only matters for such failures.
- Two simultaneous first reads of one stock key: one of the two row creations would violate the unique key; opening a row is one step here.
- Rows created by other code: sales orders (`createFromSalesOrder`), payments in PENDING, AUTHORIZED or FAILED state, invoices set to VIEWED; nothing in the modelled services creates them. SalesInvoice numbers are in `Numbering.dfy` only.
- Methods for quotation reorder, archive, restore, delete, duplicate and for invoice archive, restore, delete, duplicate: single-row updates that exist as calls of `Step` and are covered by the run theorems.
- Reversal dates and as-of dates together: `NetOver` counts all dates; the reports' theorems hold at every date.
- Clearing an account's parent with a null `parentAccountId`: an update here sets a parent or leaves it; clearing only removes a link.
- Races of a row with calls that write it absolutely or add to it under a guard (adjust, releases or transfers into it): the exact conditions on negative quantities leave them out; the accounting theorems cover all mixes.
- Payments racing with refunds, voids or edits of the invoice, and two gateway requests that both find one transaction unused: `PaymentRaces.dfy` has payment requests only.
- Logins and logouts racing with refreshes: `TokenRaces.dfy` has refresh requests only.
- Transfer.RunValid: bounds what a completed transfer has shipped from below only; the exact amount is Transfer.RunShipsExactly.
- `validateCalculations` of the pricing service: nothing calls it in the modelled services.
- Descriptive fields (names, notes, currencies, device data, who did it and when) and floating-point or 32-bit limits of quantities and amounts.
- Password hashes, JWTs, payment gateways, the HTML export, fiscal years, subscriptions, coupons, CRM and AI modules.
