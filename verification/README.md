# vinesflow: the books and the stock, verified

A Dafny model of vinesflow's engine for one organization: stock and its tracking, the
lifecycle of sales and purchase documents, the double-entry ledger and the reports over
it, and the small arithmetic and graph routines these rest on. `dafny verify dfyconfig.toml`
checks the whole project.

## What is modelled

**Stock.** Levels are a cache of an immutable movement ledger; serial units are a second,
finer account of the same goods; link rows say which units a movement moved
(`StockTables`, `Tracking`, `Inventory`, `OpeningStock`, `OpeningCalls`).

**Documents.** Drafting, editing, converting, finalizing, voiding and deleting, with the
stock each moves, the credit it settles and the voucher it posts (`DocumentTables`,
`Pricing`, `DocumentStock`, `Poster`, `Documents`). `Documents.OrgStep` is one service
call on the whole organization and `OrgRun` any sequence of calls.

**Ledger.** Drafting, posting and reversing vouchers, periods and years, and every report
(`LedgerTables`, `Ledger`, `ReversalChains`, `PeriodLocks`, `LedgerSums`, `Statements`,
`AccountStatements`, `CashReports`, `PartyOpenings`).

**Services as objects.** `InventoryServices`, `PostingServices`, `PosterServices`,
`VoucherServices` and `DocumentServices` are the services themselves: classes whose methods change their tables
in place, loop by loop. Each method is proved to do exactly what its specification
function says, on success and on every refusal; a call that raises is rolled back, so it
leaves everything as it was. The invariants and theorems are proved about the
specification functions.

**Invariants and results.** `Lifecycle`, `DocumentMoney`, `DocumentVouchers`,
`PostingPaths`, `CreditSettlement`, `GoodsMoved`, `GoodsInvariant`, `GoodsOnce`, `StockUndone`,
`FinalizeUndone`, `VoucherLegs`, `OpeningLegs`, `OpeningRepeats`, `StockLegs`,
`FrozenReports`; what goods cost and how units left, in `GoodsCost` and `UnitHistory`; what
each posting changes in the books, in `PostedEffects`; what each call accepts and writes,
stated by columns and apart from the functions that compute it, in `DocumentFacts`,
`DocumentChecks`, `StockFacts`, `LedgerFacts` and `PostingRules`; together over whole runs in `OrgInvariant`, `RunResults` and
`PartyOpeningRuns`; and runs that reach what the rules were meant to keep out, in
`ConcreteRuns` and `ConcreteOpenings`.

**Kernels.** `Rounding`, `Expenses`, `FiscalCalendar`, `AccountTree`, `Decimals`,
`Numbering`, `Iban`.

## Conventions

- Quantities are thousandths, document money cents, ledger amounts and unit costs
  ten-thousandths, and stock values the exact product of cost and quantity. Inputs come at
  their column's scale. The one stored column that keeps less than is computed for it,
  the `value_delta` of an opening movement, is rounded to four decimals, half away from
  zero, as PostgreSQL rounds a numeric. Integers are unbounded.
- A service call is atomic: an exception leaves the transaction uncommitted.
- Row ids are positions (movements, vouchers) or a counter (documents). A query without an
  order reads rows in id order; this matters for the last posted cost of a key and for
  the period found when periods overlap.
- The keys of an opening-stock call are visited in any order that lists each once; the
  original sorts them, and nothing proved depends on it.
- Serial numbers and IBANs are trimmed and upper-cased as ASCII.
- Products keep their tracking attributes, and are not removed, while prices, warehouses,
  bins, lots and everything else about the catalogue may change between steps.
- Payments are steps: `Pay` and `Unpay` settle a document under the checks of
  `backend/app/modules/payments/service.py`, and their vouchers are calls on the books.
- Setting a party's opening balance is a step; whether the party is only a vendor is given.
- Filing an invoice with the tax authority is an outcome given to the step: not filed,
  filed, or rejected, which aborts it.

## What the proofs found

- A payment is checked against what was not *paid* yet, not against the balance due
  (`backend/app/modules/payments/service.py:119`), although its message speaks of the
  balance due: a credited invoice can be paid beyond its total
  (`CreditSettlement.PaymentsIgnoreCredits`, `FullPaymentOverSettles`,
  `ConcreteRuns.SettledTwice`).
- The comment at `backend/app/modules/documents/service.py:1350-1351` promises that a
  reversal's values net to zero. They do exactly when a key's goods were posted, on the
  whole, at the last cost posted for it (`GoodsMoved.UndoneValueExactly`); a purchase with
  two prices for the same goods need not (`TwoPricesLeaveValue`).
- If the reversal of a document's voucher has been reversed by hand, voiding the document
  finds nothing standing to reverse (`DocumentVouchers.VoidAfterReversedReversal`,
  `ConcreteRuns.VoidAndStillOwed`).
- Splitting many small tax-inclusive lines can overdraw the last one, and the ledger then
  refuses the expense (`Expenses.OverdrawnLastLine`, `InclusiveAmountsValidIff`).
- The comment at `frontend/src/lib/iban.ts:3-5` says the check catches transposed digits;
  it does, but a digit next to the letter worth eleven of it (1 and B, 2 and M, 3 and X)
  can be swapped unseen (`Iban.SwapsCaughtIff`, `SwapPassesUnseen`).
- An opening value is compared with the one stored, which its column has rounded
  (`backend/app/modules/inventory/service.py:593-597`). Where quantity times cost is no
  whole number of ten-thousandths, repeating an accepted call is not quiet: it makes a
  movement each time, and is refused by the books, or posts a voucher back and forth
  (`OpeningRepeats.RepeatIsQuietIff`, `ConcreteOpenings.RepeatRefused`, `NeverSettles`).
- A bill after a receipt leaves in goods received whatever its discount, shipping or
  adjustment makes its net differ from the received value
  (`PostingPaths.PurchasePathsAgreeIff`).
- `party_opening_balance` adds superseded openings (`PartyOpenings.ReadIsLastIff`). And
  once a reversal of an opening is reversed by hand, the next setting no longer finds
  what it replaces (`PartyOpenings.SettingIsLastIff`, `UndoneReversalStays`).
- `ensure_fiscal_year_for` looks for a year that covers the date, and not for one that
  overlaps the year it makes: after a change of start month two years can share days
  (`FiscalCalendar.ChangedMonthOverlaps`; exactly when, `EnsuredFitsIff`, `RunFitsIff`,
  `RemainingFitIff`).
- A numbering prefix that ends in digits other than zeros still yields new numbers, but the
  sequence jumps (`Numbering.SequencesFollowIff`, `SequenceJumps`).

## Model

| member | source | states |
|---|---|---|
| OrgInvariant.RunKeepsOrg | backend/app/modules/documents/service.py:1148-1272 | over every mix of calls of every service, accepted or refused: levels, lots, serials and links agree, the books are sound, and every document stands where its chain, its goods, its credits and its vouchers say |
| OrgInvariant.StepKeepsOrg | backend/app/modules/documents/service.py:1148-1187 | each single call keeps all of that |
| OrgInvariant.StepCallsBooks | backend/app/modules/accounting/poster.py:72-84 | whatever a step does, the ledger changes by at most one call of the posting service, or two when a party's opening balance replaces the last |
| RunResults.StockAgreesInRuns | backend/app/modules/inventory/tracking_service.py:199-261 | in every run each level is the sum of its movements and never negative, the units in stock at a (location, bin) are the unlotted level there, and a unit has a place exactly when it is in stock |
| RunResults.ChainsInRuns | backend/app/modules/documents/service.py:987-1027 | in every run a document has at most one live dependent, a draft or void one none, and an order is closed exactly when its live dependent is sent |
| RunResults.CreditsInRuns | backend/app/modules/documents/service.py:885-910 | in every run the credited amount is what the sent credit notes settled, each its whole positive total, and a document is paid, partly paid or unpaid as its total, paid and credited columns say |
| RunResults.MoneyInRuns | backend/app/modules/documents/service.py:369-449 | in every run a line's total is its taxable value and its tax; taxable value and discount are quantity times price to the nearest cent; the discount is the amount entered, or its percentage to the nearest cent, and no more than that; the tax is the rate's current percentage of the taxable value to the nearest cent, the even one on a tie; and a document's subtotal, discount, tax and total are the sums of these |
| GoodsCost.FinalizeCostsGoods | backend/app/modules/documents/service.py:1353-1384 | finalizing a document that moves goods records each movement at the product's purchase price, or at the line's price for receipts and bills, and all of them are worth the sum over the tracked lines of quantity times that, in the document's direction |
| GoodsCost.GoodsMoveWhereInRuns | backend/app/modules/documents/service.py:1331-1397 | in every run what a document moved at any location, bin and lot is what its own lines say for that place and lot |
| GoodsCost.NothingExpiredGoesOut | backend/app/modules/documents/service.py:822-883 | no accepted sale or delivery takes a lot that expired before its date |
| UnitHistory.UnitsStandAsLeft | backend/app/modules/inventory/tracking_service.py:199-261 | in every run a unit is known exactly when a movement is linked to it, and stands as the last of those left it: in stock where it came in, sold after a sale, a delivery or an undone return, void after anything else undone, removed after an adjustment |
| UnitHistory.SoldIff | backend/app/modules/inventory/tracking_service.py:249-256 | in every run a unit is sold exactly when the last movement linked to it took it out for a sale or a delivery, or undid a return |
| UnitHistory.ReturnsOnlySold | backend/app/modules/inventory/tracking_service.py:295-324 | in every run an accepted credit note that moves goods brings back only serials that left that way |
| DocumentFacts.SourcesAgreeInRuns | backend/app/modules/documents/service.py:932-985 | in every run a finalized, live document with a source is of a type that source may become, is for its party, and of lines alike in product, description, price, discount and tax it has as much as the source: exactly, or at most for a credit note |
| DocumentFacts.SentIsFixed | backend/app/modules/documents/service.py:732-746 | once finalized, a document stays, and its type, party, date, warehouse, source, lines and totals stay as they were, through any run |
| LedgerFacts.EntriesSoundInRuns | backend/app/modules/accounting/service.py:53-118 | in every run each ledger entry is on an active, postable account, one side only, with a known party if any, dated in one of the periods of its year; no entry is ever changed or removed, nor what a posted voucher says |
| PostingRules.ReversedIffInRuns | backend/app/modules/accounting/service.py:266-299 | in every run a voucher can be reversed exactly when it is posted and the date is open: nothing done since to accounts, parties or years stands in the way |
| PostingRules.ClosedForGood | backend/app/modules/accounting/fiscal.py:74-91 | a closed period of a year that has entries stays closed, through any run |
| StockFacts.MovementsStay | backend/app/modules/inventory/service.py:201-236 | no call changes or removes a stock movement |
| RunResults.ReportsTieInRuns | backend/app/modules/accounting/reports.py:287-514 | in every run the trial balance and the balance sheet tie as of every day, the general ledger over every range, and closing cash with the balance of the cash accounts and the cash book |
| RunResults.ReversalsInRuns | backend/app/modules/accounting/service.py:266-299 | in every run reversals form lines of which only the last stands, netting to nothing (even) or to the first (odd) |
| OrgInvariant.GoodsMoveOnceInRuns | backend/app/modules/documents/service.py:810-820 | in every run exactly one of a sent document and its source moved the goods, and together they moved the document's own line quantities of every tracked product |
| OrgInvariant.VoidUndoesFinalize | backend/app/modules/documents/service.py:1238-1261 | in every run a void document has left no quantity at any place; no value, for sales and for purchases priced alike, and at a product, bin and lot exactly when it was posted at the last cost there; and, unless a reversal of it was reversed, no balance on any account and party as of any day |
| OrgInvariant.LockedOrgIsFrozen | backend/app/modules/accounting/service.py:53-67 | while a range stays locked through a run of all services' steps, the ledger entries dated in it do not change |
| OpeningLegs.OpeningLegsAreOpeningValue | backend/app/modules/accounting/poster.py:391-429 | in every run whose inventory account is the same, and not equity's, whenever opening stock is set, the inventory legs of the opening-stock vouchers are the opening value the stock ledger recognizes: within half a ledger unit for each voucher and each opening movement, and exactly when every call asks only for whole ledger units |
| OpeningRepeats.OpeningMatchesInRuns | backend/app/modules/inventory/service.py:586-631 | in every run, an accepted call leaves each key of the item with exactly the quantity asked for, in the level too, and with quantity times cost to half a ledger unit, exactly that when and only when it is a whole number of them |
| OpeningRepeats.RepeatIsQuietInRuns | backend/app/modules/inventory/service.py:593-631 | in every run, repeating an accepted call for goods not tracked by serial leaves everything as it was exactly when every quantity times its cost is a whole number of ledger units |
| StockLegs.DocumentLegsInRuns | backend/app/modules/accounting/poster.py:54-285 | in every run whose goods have an account of their own whenever a document or an adjustment posts their value, what a document's vouchers, reversals aside, have on it is the value of the document's own movements, their undoing aside, to half a ledger unit, exactly when that is whole; a bill that moved its goods itself has its net there instead; a draft has nothing |
| StockLegs.AdjustmentLegsInRuns | backend/app/modules/accounting/poster.py:359-389 | and what an adjustment's voucher has there is the value of its row |
| PartyOpeningRuns.OpeningIsLastSetInRuns | backend/app/modules/accounting/vouchers.py:190-252 | in every run a party's opening vouchers come, on every account, to the last amount set, whatever any service did in between, as long as no reversal of them is reversed by hand |
| ConcreteRuns.SettledTwice | backend/app/modules/payments/service.py:119-121 | five accepted calls from a new organization leave an invoice of 100 both credited and paid in full |
| ConcreteRuns.VoidAndStillOwed | backend/app/modules/accounting/vouchers.py:111-116 | five accepted calls leave an invoice void and its total still owed in the books |
| FinalizeUndone.VoidUndoesAtOnce | backend/app/modules/documents/service.py:1238-1261 | voiding a document right after finalizing it succeeds exactly unless it is a filed invoice or a receipt that paid itself; then every other document, every level, every unit that was there and every balance in the books is what it was |
| Tracking.MoveUnitsCounts | backend/app/modules/inventory/tracking_service.py:199-261 | moving serials changes the units in stock at the movement's own place by as many, and nowhere else |
| Tracking.MoveUnitsLinks | backend/app/modules/inventory/tracking_service.py:257-261 | each unit moved is linked to the movement, once |
| UnitHistory.ReleasedStand | backend/app/modules/inventory/tracking_service.py:240-256 | after an outbound move each named unit is sold exactly when the cause is a sale, a delivery or the undoing of a return, void exactly when it undoes anything else, and removed otherwise |
| Tracking.RelocateCounts | backend/app/modules/inventory/tracking_service.py:326-356 | transferring serials empties one place of them and fills the other |
| SerialNumbers.NormalizeIdempotent | backend/app/modules/inventory/tracking_service.py:32-36 | cleaning serial numbers twice is cleaning them once, so stored serials are the ones later moved |
| SerialNumbers.SpellingsAreOne | backend/app/modules/inventory/tracking_service.py:32-36 | two spellings of a serial number that differ by case or blanks around them are one: each alone is stored in the same capitals, and both together are refused |
| Inventory.PostSerialsKeepsStock | backend/app/modules/inventory/tracking_service.py:199-261 | a movement with its serials keeps levels, lots, units and links in agreement |
| Inventory.PostKeepsStock | backend/app/modules/inventory/service.py:201-236 | a movement of other goods does |
| Inventory.AdjustKeepsStock | backend/app/modules/inventory/service.py:285-381 | so does every accepted adjustment, by quantity or by value |
| StockFacts.AdjustWrites | backend/app/modules/inventory/service.py:285-381 | an accepted adjustment is of goods without variants at a place in use, and appends one row: its quantity at the cost given or the product's own, or no quantity and its value; and that is what is reported to the books |
| Inventory.TransferKeepsStock | backend/app/modules/inventory/service.py:383-453 | and every accepted transfer |
| Inventory.TransferConserves | backend/app/modules/inventory/service.py:420-440 | a transfer leaves the product's total and each lot's total unchanged, and moves the quantity from one key to the other |
| StockFacts.TransferWrites | backend/app/modules/inventory/service.py:383-453 | an accepted transfer is between two different places in use, and appends exactly the row that leaves the one and the row that enters the other, at no cost |
| Inventory.BinHoldsUnlottedLevel | backend/app/modules/inventory/service.py:168-180 | for goods not tracked by lot the availability sum over a bin is the very level row the movement changes |
| Inventory.TransferChecksSuffice | backend/app/modules/inventory/service.py:383-441 | once its own checks pass, a transfer is refused exactly when a serial is not at the source |
| StockTables.CatalogChangeKeepsStock | backend/app/modules/inventory/service.py:91-123 | warehouses, bins, lots, prices and new products may change under the stock without disturbing the agreement |
| InventoryServices.InventoryService.Apply | backend/app/modules/inventory/service.py:201-236 | the level row and the ledger row are written together, or the call refuses and nothing changes |
| InventoryServices.InventoryService.ApplyDocumentMovement | backend/app/modules/inventory/service.py:238-273 | the same for a document's movement, after its bin and lot checks |
| InventoryServices.InventoryService.MoveSerials | backend/app/modules/inventory/tracking_service.py:199-261 | the loop that updates units in place does what the specification function does, and a refused number undoes those before it |
| InventoryServices.InventoryService.MoveSerialsBetween | backend/app/modules/inventory/tracking_service.py:326-356 | the same for a transfer's serials |
| InventoryServices.InventoryService.AdjustStock | backend/app/modules/inventory/service.py:285-381 | adjusting in place refines the specification, value and every error included |
| InventoryServices.InventoryService.TransferStock | backend/app/modules/inventory/service.py:383-453 | transferring in place refines the specification, every error included |
| InventoryServices.InventoryService.SumBin | backend/app/modules/inventory/service.py:168-180 | the loop over level rows computes the sum over the bin |
| InventoryServices.InventoryService.ReadOpeningState | backend/app/modules/inventory/service.py:455-481 | the fold of opening movements in order |
| InventoryServices.InventoryService.ReplaceAllOpening | backend/app/modules/inventory/service.py:523-653 | setting opening stock in place refines the specification, every error included |
| OpeningStock.OpeningMatchesRequest | backend/app/modules/inventory/service.py:586-631 | after success every key holds exactly the requested quantity, left-out keys nothing, and the level says so too; its value is within half a ledger unit of quantity times cost, and exactly that when and only when it is a whole number of units |
| OpeningStock.OpeningNeverShort | backend/app/modules/inventory/service.py:523-540 | while opening stock is editable the not-enough-stock check cannot fire |
| OpeningStock.OpeningReports | backend/app/modules/inventory/service.py:590-621 | the value reported to the books is the change of the recognized total, to half a ledger unit for each movement made, and exactly when all that is asked for is whole |
| StockFacts.OpeningAccepts | backend/app/modules/inventory/service.py:483-540 | opening stock is set only for tracked goods without variants, while all the product's movements are opening ones |
| OpeningStock.SettledAgain | backend/app/modules/inventory/service.py:593-610 | asked for again, a value between two units stays held as it was, unless it lies half way: then it goes from one neighbour to the other and back |
| OpeningCalls.OpeningRefusals | backend/app/modules/inventory/service.py:523-621 | past its checks a call is never refused, except that for serial goods it conflicts exactly when a serial occurs in two entries |
| OpeningCalls.RepeatMovesNothing | backend/app/modules/inventory/service.py:596-599 | the repeat of an accepted call for goods not tracked by serial is accepted by the stock, and makes no movement exactly when every quantity times its cost is a whole number of ledger units |
| OpeningRepeats.RepeatIsQuietIff | backend/app/modules/accounting/poster.py:391-429 | with the books, the repeat changes nothing exactly then; and it is refused whenever what it reports is less than half a unit, but not nothing |
| ConcreteOpenings.RepeatRefused | backend/app/modules/accounting/poster.py:391-429 | 0.333 of an item at 1.23, held as 0.4096: the same call again is refused |
| ConcreteOpenings.NeverSettles | backend/app/modules/inventory/service.py:593-610 | 0.125 of an item at 3.33: every repeat is accepted and posts one more voucher of 0.0001, there and back |
| DocumentStock.CheckedIsTrackable | backend/app/modules/documents/service.py:822-883 | what the tracking checks let through has lots and serials adding up to its quantities |
| DocumentStock.PostStockKeepsStock | backend/app/modules/documents/service.py:1331-1397 | posting or reversing a document's goods appends exactly its movements and keeps the stock agreement |
| GoodsMoved.PostingsCarryLines | backend/app/modules/documents/service.py:1331-1397 | a document's movements carry its own line quantities, product by product |
| GoodsMoved.PostingMakesPosted | backend/app/modules/documents/service.py:1331-1397 | posting makes one movement per posting, in order and direction, at the line price on purchases and one cost per product otherwise |
| GoodsMoved.ReversingUndoes | backend/app/modules/documents/service.py:1319-1329 | reversing makes the opposite movements, each at the last cost posted for its product, bin and lot |
| GoodsMoved.UndoneQuantity | backend/app/modules/documents/service.py:1331-1397 | a posting and its reversal cancel at every key |
| GoodsMoved.UndoneValueExactly | backend/app/modules/documents/service.py:1319-1329 | their value cancels for a product, bin and lot exactly when the goods were posted, on the whole, at the last cost |
| GoodsMoved.OneCostUndoesValue | backend/app/modules/documents/service.py:1350-1352 | with one cost per product, bin and lot the value cancels key by key, whatever the price became since |
| GoodsMoved.TwoPricesLeaveValue | backend/app/modules/documents/service.py:1319-1329 | a receipt that prices the same goods at 1.00 and at 3.00 leaves a value behind when voided |
| GoodsInvariant.StepKeepsGoods | backend/app/modules/documents/service.py:1148-1261 | every step keeps the stock agreement and every document's goods where its status says: none for a draft, its own for a sent one unless the source moved them, undone for a void one |
| GoodsOnce.GoodsMoveOnce | backend/app/modules/documents/service.py:810-820 | exactly one of a sent document and its source posted stock in its direction, and their movements together are the document's line quantities |
| GoodsOnce.SumForLines | backend/app/modules/documents/service.py:955-968 | grouping lines by signature loses no quantity of any product |
| GoodsOnce.CreditNoteReturnsAtMost | backend/app/modules/documents/service.py:970-985 | a credit note returns no more of any product than its invoice sold |
| GoodsOnce.VoidMovesNothing | backend/app/modules/documents/service.py:1238-1261 | a void document's movements sum to zero at every product, location, bin and lot |
| GoodsOnce.VoidValueExactly | backend/app/modules/documents/service.py:1319-1329 | and their value to zero under exactly the stated condition |
| GoodsOnce.VoidIsWorthNothing | backend/app/modules/documents/service.py:1350-1352 | the whole value nets to zero for every sale, delivery and return, whatever the price became since, and for every purchase with one price per product, bin and lot |
| StockUndone.MoveEachIff | backend/app/modules/inventory/tracking_service.py:199-261 | moving serials one by one succeeds exactly when each may be moved and none comes twice; then each stands as moved and no other unit changes |
| StockUndone.UnitsMoveBack | backend/app/modules/inventory/tracking_service.py:233-256 | units moved with a document can be moved straight back; those there before stand as they stood, new ones are void |
| StockUndone.StockMovesBack | backend/app/modules/documents/service.py:1331-1397 | posting a document's goods and reversing them at once is never refused and restores every level and every unit that was there |
| FinalizeUndone.DocumentsGoBack | backend/app/modules/documents/service.py:885-910 | credit taken back and order reopened, every other document is field for field what it was |
| FinalizeUndone.BooksGoBack | backend/app/modules/accounting/poster.py:86-136 | a document's voucher and its reversal on the document's date leave every balance as it was, and the reversal is never refused |
| Lifecycle.StepKeepsLifecycle | backend/app/modules/documents/service.py:987-1043 | every step keeps the chains: one live dependent, allowed conversions, active sources, orders closed exactly when their dependent is sent |
| Lifecycle.DraftsHaveNoDependents | backend/app/modules/documents/service.py:999-1010 | a draft or void document has no live dependent |
| Lifecycle.ReopenedOrderConverts | backend/app/modules/documents/service.py:1012-1027 | when a dependent is voided or deleted its source is sent and free, so an order can be converted again |
| DocumentMoney.StepKeepsMoney | backend/app/modules/documents/service.py:162-189 | every step, a rate change included, keeps lines and totals what current rates make them |
| DocumentMoney.ConversionPreservesMoney | backend/app/modules/documents/service.py:1029-1130 | a freshly converted document has its source's subtotal, discount, tax and total, line for line |
| DocumentFacts.CreateWrites | backend/app/modules/documents/service.py:613-697 | a created draft holds exactly the header and lines entered, with nothing paid, credited, moved, filed or sourced; it is for a known party, which only a sales receipt may lack; nothing else changes |
| DocumentFacts.UpdateWrites | backend/app/modules/documents/service.py:732-808 | an accepted edit was of a draft, sets exactly what it gives, and keeps the rest |
| DocumentFacts.ConvertWrites | backend/app/modules/documents/service.py:1029-1146 | a conversion is of a sent document to a type it may become; it makes one draft, dated that day, for the source's party and warehouse and linked to it, with its lines on the same terms, their bins and lots carried only where the source already moved the goods |
| DocumentFacts.PayWrites | backend/app/modules/documents/service.py:297-311 | an accepted payment was of a sent invoice or bill with at least that much unpaid; it adds to what is paid, sets the status the columns say, and changes nothing else |
| DocumentFacts.UnpayWrites | backend/app/modules/payments/service.py:338-341 | taking a payment back does the reverse |
| DocumentFacts.FinalizeWrites | backend/app/modules/documents/service.py:1148-1187 | finalizing sends a draft that has lines with its content as it was, at the default warehouse if it had none and needs one; pays a sales receipt at once; and marks it filed, and its goods moved, exactly when they are |
| DocumentFacts.VoidWrites | backend/app/modules/documents/service.py:1238-1261 | an accepted void was of a sent or closed document, unpaid, no filed invoice and with no live dependent; it leaves the document void with its content as it was, nothing moved and nothing settled by it |
| DocumentFacts.DeleteWrites | backend/app/modules/documents/service.py:1263-1272 | an accepted deletion was of a draft, and removes only it |
| DocumentFacts.LinesAcceptedIff | backend/app/modules/documents/service.py:369-449 | lines are accepted exactly when each names only a known product and an active rate, and carries lots or serials only where its type and the product's tracking allow, no lot or serial twice |
| DocumentChecks.CreateAcceptedIff | backend/app/modules/documents/service.py:613-697 | a document is accepted for drafting exactly under the stated conditions on its party, warehouse, lines and bins |
| DocumentChecks.ConvertAcceptedIff | backend/app/modules/documents/service.py:1029-1146 | a conversion is accepted exactly when the pair is allowed, the source is sent and free, and the carried lines are still in order |
| DocumentChecks.TrackingIff | backend/app/modules/documents/service.py:822-883 | the tracking checks pass exactly when every tracked line has the lots or serials it needs, available or receivable as its type asks |
| DocumentChecks.PreflightIff | backend/app/modules/documents/service.py:1274-1317 | the preflight passes exactly when every bin has what all lines together take from it, and every lot its allocation |
| DocumentChecks.ReadyIff | backend/app/modules/documents/service.py:1148-1170 | a document is ready to finalize exactly when it is a draft with lines, has a warehouse where it moves goods, its source still stands and carries its lines, and tracking and preflight allow it |
| Pricing.BuildLinesSound | backend/app/modules/documents/service.py:369-449 | built lines are the inputs in order, priced at current rates, with clean serials |
| Pricing.TotalIsLineTotals | backend/app/modules/documents/service.py:482-496 | the stored total is the sum of line totals, shipping and adjustment |
| Pricing.TaxableInRange | backend/app/modules/documents/service.py:386-392 | a discount never takes a line below zero or above its base |
| Pricing.PricedLineByColumns | backend/app/modules/documents/service.py:369-449 | a built line's discount, tax and total are stated by its columns alone: nearest cents, the even one on a tie, the discount capped at quantity times price |
| CreditSettlement.StepKeepsCredits | backend/app/modules/documents/service.py:297-316 | every step keeps credited, settled, paid and status in agreement |
| CreditSettlement.ClampNeverBites | backend/app/modules/documents/service.py:904-910 | taking a credit back never meets the clamp at zero |
| CreditSettlement.FinalizedCreditPositive | backend/app/modules/documents/service.py:1171-1175 | a finalized credit note has a positive total |
| CreditSettlement.CreditsStayWithin | backend/app/modules/documents/service.py:898-899 | no credit step takes paid plus credited above the total, and no step but a payment takes a sent document above it |
| CreditSettlement.PaymentsIgnoreCredits | backend/app/modules/payments/service.py:119-121 | a payment takes a document above its total exactly when it is more than the balance after credits |
| CreditSettlement.FullPaymentOverSettles | backend/app/modules/payments/service.py:119-121 | a full payment is always accepted, and over-settles exactly when something was credited |
| DocumentServices.DocumentService.MakeLines | backend/app/modules/documents/service.py:369-449 | the loop builds the specified lines and running totals, or fails with the first bad line's error |
| DocumentServices.DocumentService.CountLines | backend/app/modules/documents/service.py:955-968 | the dictionary of quantities by signature |
| DocumentServices.DocumentService.CheckSource | backend/app/modules/documents/service.py:932-985 | the source guard, both rules included |
| DocumentServices.DocumentService.ReadPostedCosts | backend/app/modules/documents/service.py:1319-1329 | the last cost posted for each product, bin and lot |
| DocumentServices.DocumentService.MoveGoods | backend/app/modules/documents/service.py:1331-1397 | the nested loops post exactly the specified movements, or leave stock as it was |
| DocumentServices.DocumentService.CheckOutbound | backend/app/modules/documents/service.py:1274-1317 | the preflight's loops refuse exactly when the specification does |
| DocumentServices.DocumentService.CreateDraft | backend/app/modules/documents/service.py:613-697 | creating in place refines the specification |
| DocumentServices.DocumentService.EditDraft | backend/app/modules/documents/service.py:732-808 | editing in place refines the specification |
| DocumentServices.DocumentService.ConvertTo | backend/app/modules/documents/service.py:1029-1146 | converting in place refines the specification |
| DocumentServices.DocumentService.FinalizeDraft | backend/app/modules/documents/service.py:1148-1187 | finalizing in place, step by step, refines the specification; any failure leaves documents, stock and ledger as they were |
| DocumentServices.DocumentService.VoidFinal | backend/app/modules/documents/service.py:1238-1261 | voiding in place refines the specification, with the same all-or-nothing |
| DocumentServices.DocumentService.DeleteDraft | backend/app/modules/documents/service.py:1263-1272 | deleting a draft in place refines the specification |
| DocumentServices.DocumentService.ChangeRate | backend/app/modules/documents/service.py:162-183 | a used rate's percentage is refused, other changes applied |
| DocumentServices.DocumentService.RecordPayment | backend/app/modules/documents/service.py:308-311 | settling in place refines the specification |
| DocumentServices.DocumentService.CancelPayment | backend/app/modules/payments/service.py:338-341 | taking a payment back in place refines the specification |
| DocumentServices.DocumentService.AdjustAndPost | backend/app/modules/inventory/service.py:285-381 | an adjustment and its voucher happen together or not at all |
| DocumentServices.DocumentService.ReplaceOpeningAndPost | backend/app/modules/inventory/service.py:523-653 | opening stock and its voucher happen together or not at all |
| DocumentVouchers.StepKeepsVouchers | backend/app/modules/accounting/poster.py:103-136 | every step keeps at most one posting per document, on the document's date, with its reversals behind it, and none for a draft |
| DocumentVouchers.FamilyIsChain | backend/app/modules/accounting/poster.py:86-99 | a document's vouchers are its posting and the chain of reversals behind it, and nothing else |
| DocumentVouchers.NetsToZeroIff | backend/app/modules/accounting/poster.py:86-99 | they net to zero on an account and party as of a day exactly when the chain is even, or the posting is later, or it came to nothing there |
| DocumentVouchers.VoidNetsToZero | backend/app/modules/accounting/poster.py:135-136 | a void document's do, when no reversal of them was reversed |
| DocumentVouchers.VoidAfterReversedReversal | backend/app/modules/accounting/poster.py:86-99 | voiding leaves the books as they are exactly when the posting was already reversed by hand, even if that reversal was reversed in turn |
| Poster.DocumentVouchersBalance | backend/app/modules/accounting/poster.py:138-265 | every document's voucher balances, whatever its amounts and goods were worth |
| Poster.PostedCreditNotePositive | backend/app/modules/accounting/service.py:110-118 | a credit note that reaches the ledger has a positive total |
| Poster.InventoryLegIsValue | backend/app/modules/accounting/poster.py:359-429 | the inventory leg is the stock value to the nearest ten-thousandth, exactly when it is a whole number of them |
| PosterServices.LedgerPoster.FindPosted | backend/app/modules/accounting/poster.py:39-52 | the search finds a voucher of the source, reversals aside |
| PosterServices.LedgerPoster.SumStockValue | backend/app/modules/accounting/poster.py:54-70 | the signed worth of a document's movements |
| PosterServices.LedgerPoster.PostDocumentVoucher | backend/app/modules/accounting/poster.py:103-133 | posting a document in place refines the specification |
| PosterServices.LedgerPoster.ReverseVouchersOf | backend/app/modules/accounting/poster.py:86-101 | reversing the standing voucher in place refines the specification |
| PosterServices.LedgerPoster.PostStockValue | backend/app/modules/accounting/poster.py:359-429 | the value of an adjustment or of opening stock, once per source |
| VoucherServices.VoucherService.FindStanding | backend/app/modules/accounting/vouchers.py:212-220 | the search for the standing opening voucher |
| VoucherServices.VoucherService.SetPartyOpeningBalance | backend/app/modules/accounting/vouchers.py:190-252 | the last opening reversed and the new one posted in place, or everything as it was |
| PostingPaths.DeliveryThenInvoice | backend/app/modules/accounting/poster.py:138-232 | delivering and then invoicing nets, on every account and party, to invoicing outright: the cost of the goods is booked once |
| PostingPaths.SalesReceiptNet | backend/app/modules/accounting/poster.py:166-189 | a sales receipt nets to its total on the given account or cash, less total without tax on revenue, less tax on sales tax, and the cost of its goods |
| PostingPaths.ReceiptIsPaidInvoice | backend/app/modules/accounting/poster.py:166-189 | it nets, on every account and party, to an invoice for the same with its payment into the till |
| PostedEffects.FinalizeChangesBooks | backend/app/modules/accounting/poster.py:103-265 | finalizing changes the balance of every account and party, from the document's date on, by exactly what its type, total, tax, till and goods say |
| PostedEffects.DocumentPostsOne | backend/app/modules/accounting/poster.py:103-133 | posting appends one voucher, of the type's kind, on the document's date and for the document, or none when there is nothing to post |
| PostedEffects.AdjustmentChangesBooks | backend/app/modules/accounting/poster.py:359-389 | an adjustment's value goes on inventory and off the account named, or the one for adjustments |
| PostedEffects.OpeningChangesBooks | backend/app/modules/accounting/poster.py:391-429 | opening stock goes on inventory and off opening equity |
| PostingPaths.FullCreditUndoesInvoice | backend/app/modules/accounting/poster.py:138-219 | a credit note for all of an invoice takes it off every account but revenue and returns, which mirror each other |
| PostingPaths.PurchasePathsAgreeIff | backend/app/modules/accounting/poster.py:234-273 | receiving and then billing nets to billing outright on every account exactly when the bill's net is the received value |
| Ledger.StepKeepsBooks | backend/app/modules/accounting/service.py:191-299 | every call keeps each posted voucher's entries its lines, every voucher balanced on postable accounts, and every reversal the mirror of exactly one voucher |
| LedgerFacts.JournalsAvoidControl | backend/app/modules/accounting/service.py:71-108 | a journal posted by hand puts no entry on a control account |
| PostingRules.PostAcceptedIff | backend/app/modules/accounting/service.py:53-118 | a posting is accepted exactly when the first period that covers its date is open and of an active year, and its lines balance, each one-sided, of a known party if any, and on an account in use it may touch |
| PostingRules.EditedJournalPosts | backend/app/modules/accounting/vouchers.py:64-100 | an edited journal, once posted, posts exactly the lines and the date it was edited to |
| PostingRules.CancelledForGood | backend/app/modules/accounting/vouchers.py:102-109 | a cancelled journal stays so, through any run: never edited, posted or reversed |
| Ledger.RunKeepsBooks | backend/app/modules/accounting/service.py:191-299 | so does every run |
| Ledger.PostVoucherEffect | backend/app/modules/accounting/service.py:237-264 | posting adds one voucher and its entries and changes nothing else |
| Ledger.ReverseEffect | backend/app/modules/accounting/service.py:266-299 | reversing adds the mirrored voucher and marks the original, and changes nothing else |
| PostingServices.PostingService.ResolveOpenPeriod | backend/app/modules/accounting/service.py:53-67 | the search returns the first covering period if its year is active and it is open |
| PostingServices.PostingService.Validate | backend/app/modules/accounting/service.py:71-127 | the accumulating loops accept exactly the valid, balanced lines |
| PostingServices.PostingService.Post | backend/app/modules/accounting/service.py:191-235 | one entry per line, and the voucher becomes posted, or nothing changes |
| PostingServices.PostingService.Reverse | backend/app/modules/accounting/service.py:266-299 | reversing in place refines the specification |
| PostingServices.PostingService.UpdateDraft | backend/app/modules/accounting/vouchers.py:64-93 | a draft's lines are cleared and refilled |
| PostingServices.PostingService.CancelDraft | backend/app/modules/accounting/vouchers.py:102-109 | only a draft can be cancelled |
| PostingServices.PostingService.ChangePeriodStatus | backend/app/modules/accounting/fiscal.py:74-91 | a period opens and locks, a closed one never changes |
| PostingServices.PostingService.RemoveYear | backend/app/modules/accounting/fiscal.py:37-64 | a year without postings goes with its periods, unless it is the only one |
| ReversalChains.OnlyLastStands | backend/app/modules/accounting/service.py:266-299 | of a chain of reversals only the last voucher is posted |
| ReversalChains.ChainNets | backend/app/modules/accounting/service.py:266-299 | an even chain nets to nothing, an odd one to its first voucher, on every account and party |
| ReversalChains.ChainNetsInLedger | backend/app/modules/accounting/vouchers.py:111-116 | the same for the ledger entries of a chain dated alike, as of every day |
| PeriodLocks.LockedBooksAreFrozen | backend/app/modules/accounting/fiscal.py:74-91 | no run of ledger calls changes entries dated in a range that stays locked |
| FrozenReports.LockedReportsAreConstant | backend/app/modules/accounting/reports.py:116-150 | so the range's profit and loss rows, its net profit and the entries its statements list stay what they were |
| PartyOpenings.OpeningIsLastAmount | backend/app/modules/accounting/vouchers.py:190-252 | a party's opening vouchers of all types net to the last amount set, on its own account, and to nothing elsewhere |
| PartyOpenings.SettingIsLastIff | backend/app/modules/accounting/vouchers.py:210-251 | from any sound books, setting the balance leaves it at the amount set exactly when before it was what the standing opening says |
| PartyOpenings.UndoneReversalStays | backend/app/modules/accounting/vouchers.py:111-116 | it is not after a reversal of the opening is itself reversed: the amount is back, and nothing stands for the next setting to take out |
| PartyOpenings.OtherCallsKeepOpenings | backend/app/modules/accounting/vouchers.py:111-116 | any other call that does not reverse a reversal of them leaves what they come to as it was, or, taking the standing one back, at nothing |
| PartyOpenings.NoOpeningsYet | backend/app/modules/accounting/vouchers.py:190-252 | a new organization starts with none |
| PartyOpenings.ReadIsLastIff | backend/app/modules/accounting/vouchers.py:176-188 | the figure read back adds every amount ever set, so it is the last one exactly when it read zero before |
| Statements.MakeTrialBalance | backend/app/modules/accounting/reports.py:87-114 | the loop's rows and totals are the accounts' nets on their sides |
| Statements.TrialBalanceTies | backend/app/modules/accounting/reports.py:87-114 | the two totals are equal for all sound books, as of every day |
| Statements.TrialLineIff | backend/app/modules/accounting/reports.py:87-114 | a line is in it exactly when an account of the chart has a balance, on the side of its sign |
| Statements.MakeProfitAndLoss | backend/app/modules/accounting/reports.py:116-150 | rows, totals and profits |
| Statements.ProfitIsNet | backend/app/modules/accounting/reports.py:116-150 | net profit is the credit balance of income and expense accounts together |
| Statements.RowIff | backend/app/modules/accounting/reports.py:116-150 | a row is shown exactly for an account of the chosen types with a balance, which is its amount with the sign of its side |
| Statements.MakeBalanceSheet | backend/app/modules/accounting/reports.py:152-189 | rows, current earnings and totals |
| Statements.BalanceSheetTies | backend/app/modules/accounting/reports.py:152-189 | assets equal liabilities and equity, with current earnings the net profit of all entries up to the day |
| AccountStatements.MakeStatement | backend/app/modules/accounting/reports.py:240-262 | opening balance, running rows and closing |
| AccountStatements.StatementRows | backend/app/modules/accounting/reports.py:221-238 | each row carries the balance after it |
| AccountStatements.RowsRun | backend/app/modules/accounting/reports.py:221-238 | row by row the balance moves by its entry's debit less credit, or the other way round |
| AccountStatements.ByDayKeepsDays | backend/app/modules/accounting/reports.py:209-219 | ordering by date leaves each day exactly its entries, in the order they were posted |
| AccountStatements.StatementCarriesForward | backend/app/modules/accounting/reports.py:191-262 | a statement closes at the balance up to its end, so the next one opens where it closed |
| AccountStatements.MakeGeneralLedger | backend/app/modules/accounting/reports.py:465-514 | the sections and grand totals |
| AccountStatements.GeneralLedgerTies | backend/app/modules/accounting/reports.py:465-514 | its debits equal its credits over any range |
| AccountStatements.SectionBalances | backend/app/modules/accounting/reports.py:465-514 | a section opens at the account's balance before the range and closes at that up to its end, in debits less credits, or credits less debits for liabilities, equity and income |
| AccountStatements.SectionIff | backend/app/modules/accounting/reports.py:465-514 | the sections are exactly those of the accounts with an entry in the range |
| CashReports.MakeAccountBook | backend/app/modules/accounting/reports.py:328-356 | one account's cash book, day by day |
| CashReports.MakeCashBook | backend/app/modules/accounting/reports.py:287-384 | the book of every cash account and their sums |
| CashReports.BookCloses | backend/app/modules/accounting/reports.py:287-384 | each account's book closes at its balance up to the last day |
| CashReports.DaysChain | backend/app/modules/accounting/reports.py:340-366 | each day opens where the one before it closed |
| CashReports.DayRowIs | backend/app/modules/accounting/reports.py:340-356 | one row for each day, with the account's own receipts and payments of that day, which are the difference from its opening to its closing |
| CashReports.DaysIff | backend/app/modules/accounting/reports.py:340-356 | the days are exactly those in the range with an entry on the account |
| CashReports.BookIff | backend/app/modules/accounting/reports.py:330-384 | a book is listed exactly for the cash accounts that are postable or have an entry in the range |
| CashReports.BookAddsUp | backend/app/modules/accounting/reports.py:328-366 | a book closes at its opening with its receipts added and its payments taken off |
| CashReports.MakeCashFlow | backend/app/modules/accounting/reports.py:386-463 | the classified counterparts and totals |
| CashReports.BucketsCover | backend/app/modules/accounting/reports.py:24-33 | every counterpart falls in exactly one bucket |
| CashReports.FlowRowIff | backend/app/modules/accounting/reports.py:386-463 | a row is in a bucket exactly when its account, not cash, has a movement in vouchers that moved cash and belongs there by its type and code: equity, and liabilities outside current ones, to financing; assets outside current ones to investing; the rest to operating |
| CashReports.CashFlowTies | backend/app/modules/accounting/reports.py:386-463 | closing cash, from the opening and the counterparts, is the cash accounts' balance up to the end and the sum of the cash book closings |
| Rounding.HalfEvenNearest | backend/app/modules/documents/service.py:108-110 | half to even is the nearest value, the even one on a tie, and nothing else is |
| Rounding.HalfUpNearest | backend/app/modules/accounting/service.py:32-33 | half up is the nearest value, the one further from zero on a tie |
| Expenses.ComputeNetAmounts | backend/app/modules/expenses/totals.py:30-40 | the comprehension and the fix of the last line compute the split |
| Expenses.NetSumsToSubtotal | backend/app/modules/expenses/totals.py:20-40 | the lines sum exactly to the subtotal, in both modes |
| Expenses.NetNearShares | backend/app/modules/expenses/totals.py:38-39 | each line but the last is within half a cent of its exact share, the last within half a cent per other line |
| Expenses.ExpenseVouchersBalance | backend/app/modules/accounting/poster.py:433-466 | every expense voucher's debits equal its credit, in both modes |
| Expenses.ExpenseLinesNet | backend/app/modules/accounting/poster.py:433-466 | on every account and party the voucher's lines net to the split amounts of exactly the expense's lines on that account, the tax on input tax, less the total on the account it was paid through |
| PostedEffects.ExpenseChangesBooks | backend/app/modules/accounting/poster.py:433-466 | and posting it changes every balance by that, from its date on |
| Expenses.InclusiveAmountsValidIff | backend/app/modules/accounting/poster.py:441-449 | the ledger accepts a tax-inclusive expense's debits exactly when the tax is within the gross and the other rounded lines leave the last one something or nothing |
| Expenses.RoomMakesValid | backend/app/modules/expenses/totals.py:30-40 | so it does whenever twice the last line's exact share, in cents, is more than the number of lines less three |
| Expenses.FewLinesHaveRoom | backend/app/modules/expenses/totals.py:38-39 | which up to three lines with any tax below the gross always give |
| Expenses.OverdrawnIsRefused | backend/app/modules/accounting/poster.py:433-466 | one that does not cannot be posted |
| Expenses.OverdrawnLastLine | backend/app/modules/expenses/totals.py:38-39 | five lines of one cent with two cents of tax leave the last line minus one |
| FiscalCalendar.PeriodsTile | backend/app/modules/accounting/setup.py:79-110 | the twelve periods cover the year with no gap or overlap, leap years included |
| FiscalCalendar.MonthLengths | backend/app/modules/accounting/setup.py:79-110 | every month's length, and February's in a common year, a leap year, a century and a fourth century |
| FiscalCalendar.YearsShareDayIff | backend/app/modules/accounting/setup.py:79-110 | two years share a day exactly when they begin less than twelve months from each other |
| FiscalCalendar.OnePeriodAtMost | backend/app/modules/accounting/setup.py:79-110 | while no day is in two years, none is in two periods |
| FiscalCalendar.NewYearFitsIff | backend/app/modules/accounting/setup.py:79-110 | a year added to a calendar keeps every day in one year exactly when it begins a year or more from each of the others |
| FiscalCalendar.ExtendedFits | backend/app/modules/accounting/setup.py:112-121 | the next year always does: it comes after all the others, whatever months they begin in |
| FiscalCalendar.EnsuredFitsIff | backend/app/modules/accounting/setup.py:123-140 | making sure of a date does exactly when the date is covered, or the year computed for it begins a year or more from each of the others |
| FiscalCalendar.RunFitsIff | backend/app/modules/accounting/setup.py:69-140 | over any run of these calls, the start month changing at will, no day is in two years exactly when each such call met that condition |
| FiscalCalendar.RemainingFitIff | backend/app/modules/accounting/fiscal.py:37-52 | with years deleted in between, those that remain share no day exactly when each that was made to cover a date begins, by the computed start, a year or more from each remaining one made before it |
| FiscalCalendar.RemovedFitsIff | backend/app/modules/accounting/fiscal.py:37-52 | deleting a year leaves no day in two years exactly when no two of the others begin less than twelve months apart |
| FiscalCalendar.FixedMonthRuns | backend/app/modules/accounting/setup.py:69-140 | with a start month that never changes every run keeps the years apart, whatever is deleted |
| FiscalCalendar.YearsDisjoint | backend/app/modules/accounting/setup.py:112-140 | years that begin in one month, no two together, share no day |
| FiscalCalendar.ChangedMonthOverlaps | backend/app/modules/accounting/setup.py:123-140 | two calls with the start month changed between them, the first July and the second January, leave a September in two years |
| FiscalCalendar.SetupService.CreateYear | backend/app/modules/accounting/setup.py:79-110 | the loop makes the year and its twelve months |
| FiscalCalendar.SetupService.Seed | backend/app/modules/accounting/setup.py:69-77 | an empty calendar gets the year that covers today, any other stays as it is |
| FiscalCalendar.SetupService.CreateNext | backend/app/modules/accounting/setup.py:112-121 | the next year starts the day after the latest ends, after all others, and costs no calendar its disjointness |
| FiscalCalendar.SetupService.EnsureFor | backend/app/modules/accounting/setup.py:123-140 | the year returned covers the target; one is made, from the computed start, only if none did, and the row with that start is then never there already; the days stay apart exactly under the stated condition |
| FiscalCalendar.AddedYearOpens | backend/app/modules/accounting/service.py:53-67 | after a year is added the ledger finds each of its dates in its own open month |
| AccountTree.Subtree | backend/app/modules/accounting/accounts.py:12-36 | the worklist returns exactly the roots and everything beneath them, and ends, for every parent map, circular ones included |
| AccountTree.CirclesAreAllowed | backend/app/modules/accounting/accounts.py:84-108 | two accounts can be made each other's parent; only self-parenting is refused |
| Numbering.NextIsNew | backend/app/modules/documents/numbering.py:34-46 | the next number is none of the existing ones, whatever the prefix |
| Numbering.ReadsBackIff | backend/app/modules/documents/numbering.py:25-31 | a printed number reads back as its sequence exactly when the body ends in no digits, or zeros |
| Numbering.YearlyReadsBack | backend/app/modules/documents/numbering.py:43-46 | a yearly series always reads back |
| Numbering.YearlyNumber | backend/app/modules/documents/numbering.py:14-46 | a new yearly series with prefix INV- starts in 2024 at INV-2024-0001 |
| Numbering.SequencesFollowIff | backend/app/modules/documents/numbering.py:25-46 | and exactly then the next number follows by one |
| Numbering.SequenceJumps | backend/app/modules/documents/numbering.py:25-46 | a series with prefix A1 goes from 1 to 12 |
| Numbering.NumberedTable.Assign | backend/app/modules/documents/numbering.py:49-79 | what is inserted is new; six attempts fail only if others took every number made; with nobody else inserting the first succeeds |
| Iban.ChecksumPasses | frontend/src/lib/iban.ts:6-15 | the digit-by-digit remainder passes exactly when the whole number leaves one |
| Iban.MistakesAreCaught | frontend/src/lib/iban.ts:3-5 | one digit mistaken for another, or one letter for another, is always caught, wherever it stands |
| Iban.SwapsCaughtIff | frontend/src/lib/iban.ts:3-5 | two unequal neighbours swapped, wherever they stand, pass exactly when they are a digit and the letter worth eleven of it |
| Iban.SwapPassesUnseen | frontend/src/lib/iban.ts:3-5 | GB671B000000000 is accepted, and so is GB67B1000000000 |
| Iban.NeighboursOfAKindAreCaught | frontend/src/lib/iban.ts:3-5 | two unequal digits side by side, or two unequal letters, swapped are always caught |
| Iban.NormalizedStays | backend/app/modules/banks/schemas.py:24-36 | what the server stores is accepted and stays as it is |
| Iban.ValidateIban | frontend/src/lib/iban.ts:18-31 | the screen accepts nothing, or an accepted number |
| Iban.ScreenAndServerAgreeIff | backend/app/modules/banks/schemas.py:24-36 | screen and server accept the same input except white space alone |

## Left out

- Drafting of lots by number: a line names existing lots; creating one from its number is a change of the catalogue.
- Document numbers, due dates, salespeople, commission, terms and notes, which nothing proved depends on.
- FBR tax, its guards on credit notes and its network client; a rejected filing is a failing step.
- `create_opening_balances`: one balanced voucher, covered as a posting call of the books.
- Payment, product, party, settings and user services, beyond the steps and lookups named above.
- Routers, permissions, activity log, media, PDF, e-mail, background jobs and the screens, except the IBAN check.
- Row locks and concurrent transactions: steps are serial, except that `Numbering.NumberedTable.Assign` is given what other sessions insert between its attempts.
- Aging, dashboards and lists, which are single queries.
- LIKE wildcards in a numbering prefix: the yearly scope is the exact prefix.
- White space and case beyond ASCII in serial numbers and IBANs.
- Decimal's 28-digit working precision and column overflow: arithmetic is exact.
- Document rows as mutable objects: the document service keeps documents as rows of a table it rewrites, so two variables never alias one document.
- Statements.MakeProfitAndLoss: which accounts count as cost of sales is given as a set; `AccountTree.Subtree` computes it from the settings.
- InventoryServices.InventoryService.ReplaceAllOpening: lots are named by row, not created from a number.
- DocumentServices.DocumentService.CreateDraft: numbers, due dates, salespeople, FBR tax and the checks of a party's type are not modelled.
- DocumentServices.DocumentService.EditDraft: due dates, salespeople, FBR tax and the checks of a party's type are not modelled.
- DocumentServices.DocumentService.ConvertTo: numbers, terms, commission and FBR fields are not carried over.
- FiscalCalendar.RunFitsIff: is about runs that delete no year; `FiscalCalendar.RemainingFitIff` is about all.
