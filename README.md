# Acct-IDE bookkeeping core in Dafny

Acct-IDE is a browser bookkeeping application. A single accounting context
holds the chart of accounts and the journal. It also holds the subsidiary
books (purchase, sales and the two return books), the cash book, the
perpetual stock ledger and the inventory master. Every report is a fold over
that history: the account balances, the trial balance, the general ledger,
the stock register and the final accounts (trading account, profit and loss
account, balance sheet).

This project models that engine and the calculations the entry and report
screens perform on it:

- `Engine.Store` is a class whose fields are the six stores.
- `addEntry` accepts a journal entry only when its debits and credits agree
  to within 0.01, and puts it first.
- The posting translators turn invoices, cash-book entries and depreciation
  charges into journal lines and stock movements.
- `calculateFIFOCost` values an issue by walking the date-ordered receipt
  layers. `Stock.ValueIssueIsInterval` proves it against an independent
  definition: the cost of the units between `issued` and `issued + q`.

The model keeps several behaviours of the code as they are:

- A contra entry always debits the bank. Both contra names the cash-book form
  produces contain "bank", so the translator takes its bank branch every time.
- The profile dialog derives the DIRECT category for every revenue or expense
  classification. "INDIRECT_…" contains "DIRECT".
- Every line of one invoice is FIFO-costed against the stock ledger as it
  stood before the invoice. The invoice's own movements are appended only
  at the end.
- The stock register view issues from the newest batch (last in, first out),
  while the engine costs issues first in, first out.
- The general ledger shows only the first line an entry has for an account.
- After a journal post, the editor's history keeps the posted entry one
  undo step back.

Modelling conventions:

- Amounts are `real`, dates are `int`, and names and ids are strings.
- JavaScript's `toLowerCase`, `trim` and `includes` are modelled in
  `JsText` over ASCII letters and ASCII white space. A stable sort by date is written out in `Sorting`.
- `uuidv4()` and `Math.random()` are a `Fresh` source of ids and draws
  fixed at construction. The store counts how many it has used.
- Each engine call reads the stores as they were when it started and appends
  its results. This is how the asynchronous state updates of the original
  behave within one call.

## Model

| member | source | states |
|---|---|---|
| Registry.DefaultAccounts | context/AccountingContext.tsx:11-21 | the nine default accounts, each with a classification its type offers |
| Registry.DefaultCodesDistinct | context/AccountingContext.tsx:11-21 | the default accounts carry distinct codes |
| Registry.CodePrefixClashes | context/AccountingContext.tsx:159 | two types share a code prefix exactly when they are equal or both are liability/equity |
| Registry.CodeNumber | context/AccountingContext.tsx:160 | the drawn number of a new code lies in 100..998 |
| Registry.ThreeDigits | context/AccountingContext.tsx:160 | the number is spelled as three decimal digits |
| Registry.ThreeDigitsValue | context/AccountingContext.tsx:160 | reading the three digits back gives the number |
| Registry.NewAccount | context/AccountingContext.tsx:158-164 | a new account keeps the id, the trimmed name, type, classification and category; its code is the type prefix and three digits |
| Registry.NewAccountCode | context/AccountingContext.tsx:160 | the code spells the prefix followed by the drawn number |
| Registry.Find | context/AccountingContext.tsx:166 | the result is the first account satisfying the predicate, or none satisfies it |
| Registry.FindByName | context/AccountingContext.tsx:166 | `getAccountByName`: found iff some account's lower-cased name equals the trimmed, lower-cased query |
| Registry.FindNamed | context/AccountingContext.tsx:331 | the exact-name lookup: found iff some account has exactly that name |
| Registry.FindById | context/AccountingContext.tsx:372 | found iff some account has the id |
| Registry.FindByNameAfterTrim | context/AccountingContext.tsx:166 | an exactly named account is also found by the case-insensitive lookup |
| Registry.ApplyPatch | context/AccountingContext.tsx:167 | present fields overwrite, absent ones are kept, the id never changes |
| Registry.ApplyPatchIdempotent | context/AccountingContext.tsx:167 | applying a patch twice equals applying it once |
| Registry.ApplyEmptyPatch | context/AccountingContext.tsx:167 | the empty patch changes nothing |
| Registry.UpdateAccounts | context/AccountingContext.tsx:167 | every account with the id is patched, every other is unchanged, order and length are kept |
| Registry.RemoveAccount | context/AccountingContext.tsx:168 | the result is no longer than the input |
| Registry.RemoveAccountMembers | context/AccountingContext.tsx:168 | an account survives iff its id differs |
| Registry.RemoveAccountIdempotent | context/AccountingContext.tsx:168 | deleting twice equals deleting once |
| Journal.WithTransactionId | context/AccountingContext.tsx:154 | an entry always leaves with a transaction id; a present non-empty one is kept; nothing else changes |
| Journal.FoldLines | components/TrialBalanceView.tsx:24-30 | the inner loop over an entry's lines returns the account's signed sum and whether any line touched it |
| Journal.FoldBalance | components/TrialBalanceView.tsx:20-31 | the nested loops return `getAccountBalance` and whether the account has any line |
| Journal.HasLineSnoc | components/TrialBalanceView.tsx:23-31 | an account is touched by a longer history iff by the shorter one or by the new entry |
| Journal.UntouchedBalanceZero | context/AccountingContext.tsx:137-142 | an account no line refers to has balance 0 |
| Journal.UntouchedLinesZero | context/AccountingContext.tsx:139 | lines that do not refer to the account contribute 0 |
| Journal.BalanceAppend | context/AccountingContext.tsx:137-142 | the balance over a concatenated history is the sum of the balances |
| Journal.PrependEntry | context/AccountingContext.tsx:154 | putting an entry first adds exactly that entry's lines to every balance |
| Journal.StampKeepsLines | context/AccountingContext.tsx:154 | stamping the transaction id changes no balance |
| Journal.SignedTotalIsDifference | context/AccountingContext.tsx:151-152 | an entry's signed sum over all accounts is its debits minus its credits |
| Journal.JournalImbalanceBound | context/AccountingContext.tsx:153 | with every entry accepted, the whole journal's debits and credits differ by at most 0.01 per entry, and by nothing when every entry balances exactly |
| Stock.ReceiptsAreReceipts | context/AccountingContext.tsx:192-193 | the layers are receipts of the item taken from the stock ledger |
| Stock.StockIsReceivedMinusIssued | context/AccountingContext.tsx:144-148 | the stock balance is quantity received minus quantity issued |
| Stock.StockBalanceAppend | context/AccountingContext.tsx:144-148 | the balance of a concatenation is the sum of the balances |
| Stock.StockBalanceRemove | context/AccountingContext.tsx:144-148 | removing one movement removes exactly its contribution |
| Stock.StockBalancePermutation | context/AccountingContext.tsx:144-148 | the stock balance does not depend on the order of the movements |
| Stock.WalkReceipts | context/AccountingContext.tsx:200-215 | the loop over the receipts computes the FIFO walk: skip used-up layers, take min(remaining, left in layer) at the layer rate |
| Stock.CalculateFifoCost | context/AccountingContext.tsx:191-222 | the method returns the FIFO cost of the walk, with any unmet quantity at the item's last purchase rate or 0 |
| Stock.LayersNonNegative | context/AccountingContext.tsx:192-194 | receipts of non-negative quantity give non-negative layers |
| Stock.WalkIsLayerInterval | context/AccountingContext.tsx:204-215 | the walk adds the cost of the next `remaining` units after the issued ones and leaves the uncovered quantity |
| Stock.ValueIssueIsInterval | context/AccountingContext.tsx:204-221 | FIFO correctness: an issue costs the layer units from `issued` to `issued + q`, plus the uncovered quantity at the fallback rate |
| Stock.FifoExample | context/AccountingContext.tsx:191-222 | receipts 10 at 5 and 10 at 7: an issue of 15 costs 85; after it, an issue of 5 costs 35 |
| Engine.TransactionId | context/AccountingContext.tsx:154 | the generated transaction id starts with "TXN-" followed by at most eight characters |
| Engine.DocumentId | context/AccountingContext.tsx:169 | a document number is the book's initial, a dash and at most four characters |
| Engine.DocumentIdPrefixes | context/AccountingContext.tsx:169 | a return book numbers its documents like its book; sales, purchase and cash numbers differ |
| Engine.FindItem | context/AccountingContext.tsx:282 | the item lookup by lower-cased, trimmed description: found iff some item matches |
| Engine.UpdateItemRate | context/AccountingContext.tsx:303-305 | exactly the items with the id take the new last purchase rate |
| Engine.DuplicateNewItems | context/AccountingContext.tsx:282-287 | two lines naming the same unknown item both create an item, because each lookup reads the snapshot |
| Engine.CountStep | context/AccountingContext.tsx:281-299 | each line adds its own contribution to the movement and new-item counts |
| Engine.BalanceCashBookIgnoresDate | context/AccountingContext.tsx:171 | the cash-book position does not depend on the date asked for |
| Engine.BalanceCashBookAppend | context/AccountingContext.tsx:171-181 | one more entry moves cash and bank by its signed amounts |
| Engine.OfBook | context/AccountingContext.tsx:186 | the documents of one book: membership iff the book matches |
| Engine.ValidReferenceDocs | context/AccountingContext.tsx:185-189 | a purchase return may cite exactly the purchases, a sales return exactly the sales, other books nothing |
| Engine.Store.constructor | context/AccountingContext.tsx:94 | a fresh store holds the default accounts and nothing else |
| Engine.Store.NewId | context/AccountingContext.tsx:154 | one fresh id is drawn; no store changes |
| Engine.Store.StampLines | context/AccountingContext.tsx:257-275 | each line receives the next fresh id; no store changes |
| Engine.Store.AddEntry | context/AccountingContext.tsx:150-156 | accepted iff the sides agree within 0.01; an accepted entry is put first with a transaction id, the others kept in order; a refused one changes nothing; every stored entry stays balanced |
| Engine.Store.CreateAccount | context/AccountingContext.tsx:158-164 | appends the new account with a fresh id and a drawn code, and returns it |
| Engine.Store.ResolveOr | context/AccountingContext.tsx:228-232 | `found \|\| createAccount(...)`: a found account changes nothing, otherwise one is created |
| Engine.Store.ResolveByName | context/AccountingContext.tsx:228-232 | the account the trimmed, case-blind name lookup finds in the snapshot, with nothing changed; otherwise a `NewAccount` with the next fresh id and draw, appended to the accounts and nothing else |
| Engine.Store.ResolveExact | context/AccountingContext.tsx:381-382 | the account the exact-name lookup finds in the snapshot, with nothing changed; otherwise a `NewAccount` with the next fresh id and draw, appended to the accounts and nothing else |
| Engine.Store.UpdateAccount | context/AccountingContext.tsx:167 | the accounts become `UpdateAccounts` of the old ones; nothing else changes |
| Engine.Store.DeleteAccount | context/AccountingContext.tsx:168 | the accounts lose those with the id; journal lines are kept |
| Engine.Store.AddSubsidiaryEntry | context/AccountingContext.tsx:435 | the document is appended; nothing else changes |
| Engine.Store.GenerateDocumentId | context/AccountingContext.tsx:169 | returns the document number of the next fresh id; no store changes |
| Engine.Store.SoftReset | context/AccountingContext.tsx:440 | every store is cleared except the accounts and the inventory items |
| Engine.Store.HardReset | context/AccountingContext.tsx:441 | back to the default accounts with every other store empty |
| Engine.Store.PostLines | context/AccountingContext.tsx:278 | the lines, freshly stamped, are offered to `addEntry`: recorded first iff balanced, with the date and narration given |
| Engine.Store.ResolveDiscount | context/AccountingContext.tsx:259-268 | a discount account is resolved iff the book is purchase or sales and the cash discount is positive: Discount Received A/c for a purchase, Discount Allowed A/c for a sale, each found by name or created; only accounts change |
| Engine.Store.ResolveDocumentAccounts | context/AccountingContext.tsx:228-245 | `DocumentAccounts`: the party (debtor or creditor by book) and the book's main account, each found by name or created with the book's type and classification, and the discount account as `ResolveDiscount` says; only accounts are appended |
| Engine.Store.PostDocumentLines | context/AccountingContext.tsx:247-278 | posted iff the document's imbalance is within 0.01 (always for the return books); the entry goes first with the document's date and the book's narration, and its lines are `DocumentLines` of the resolved accounts under fresh ids |
| Engine.Store.StockLine | context/AccountingContext.tsx:281-297 | one line's effect is exactly `LineStep`: a movement iff the line names a known good or a non-blank new one, valued as `MoveFor` says; an unknown name appends a new good; a purchase sets the good's last purchase rate; goods keep their ids and names |
| Engine.LineStepEffect | context/AccountingContext.tsx:281-297 | `LineFacts` of one line: a movement iff the line is stockable, valued as `MoveFor` says; one good more iff the line creates one; ids and names kept; goods untouched outside a purchase |
| Engine.StockedSnoc | context/AccountingContext.tsx:280-299 | one more line's `LineFacts` extends `Stocked` from a prefix of the invoice to the longer prefix |
| Engine.StockableLines | context/AccountingContext.tsx:281-286 | the stockable lines are the invoice lines, in order, whose item is known or whose name is not blank |
| Engine.MovesSnoc | context/AccountingContext.tsx:288-296 | one more stockable line adds exactly its movement to the per-line valuation |
| Engine.Store.RecordStockMoves | context/AccountingContext.tsx:280-299 | `Stocked`: one movement per stockable line, in order, each valued by `MoveFor` against the ledger as it was before the invoice; one new good per unknown name; goods keep ids and names and are untouched outside a purchase |
| Engine.Store.PostDocumentStock | context/AccountingContext.tsx:280-300 | the old ledger is kept as a prefix and the appended movements, with the new goods, are `Stocked` for the invoice; no other store changes |
| Engine.Store.PostSubsidiaryEntry | context/AccountingContext.tsx:224-301 | posts iff the imbalance is within 0.01, first, with the document's date, the book's narration and `PostsDocumentLines`; appends the movements even when the entry is refused, `Stocked` for the invoice; keeps the ledger prefix |
| Engine.Store.PostDepreciation | context/AccountingContext.tsx:370-375 | without the asset no entry; otherwise one entry first, with the date and narration given and marked as depreciation: a debit of the amount to Depreciation A/c (found by name, or created and appended) and a credit of the amount to the asset |
| Engine.DepreciationPosted | context/AccountingContext.tsx:374 | the two posted lines debit the depreciation account and credit the asset with the amount |
| Engine.Store.ResolveCashBookAccounts | context/AccountingContext.tsx:381-417 | `CashBookAccounts`: Cash A/c and Bank A/c by exact name, capital for an opening balance, the counter account for an ordinary entry, the discount account when the discount is positive, each found or created |
| Engine.Store.ResolveCounterAccounts | context/AccountingContext.tsx:385-418 | capital iff an opening balance, the counter account (revenue for a receipt, expense for a payment) iff an ordinary entry, a discount account iff ordinary with a positive discount; each found by name or created |
| Engine.Store.ResolveCashDiscount | context/AccountingContext.tsx:408-416 | Discount Allowed A/c for a receipt, Discount Received A/c for a payment, found by name or created |
| Engine.Store.AddCashBookEntry | context/AccountingContext.tsx:377-423 | the entry is recorded; a posted entry goes first with the entry's date and particulars and `PostsCashBookLines` (this entry's lines for the resolved accounts under fresh ids); ordinary non-negative entries always post; an opening balance posts iff cash or bank is positive; a form contra debits Bank A/c and credits Cash A/c with the bank amount |
| Engine.Store.PostCashBookLines | context/AccountingContext.tsx:384-422 | for resolved accounts: the same posting facts as `AddCashBookEntry`, with the cash-book list unchanged |
| Engine.Store.PostCashBookEntry | context/AccountingContext.tsx:422 | posts iff the lines are not empty and balance, first, with the date and particulars; a form contra posts bank debit and cash credit |
| Engine.CashBookPosted | context/AccountingContext.tsx:384-422 | the cash-book lines of resolved accounts, restamped, are `PostsCashBookLines` |
| Engine.ContraPosted | context/AccountingContext.tsx:394-397 | the two contra lines debit Bank A/c and credit Cash A/c with the bank amount |
| Engine.CashBookOutcome | context/AccountingContext.tsx:384-422 | what the lines of each kind of cash-book entry are and whether they balance |
| Postings.Stamp | context/AccountingContext.tsx:257-275 | each line gets a fresh id and keeps everything else |
| Postings.SameAmountsSameTotals | context/AccountingContext.tsx:151-152 | the side totals depend only on sides and amounts |
| Postings.SameAmountsSameBalance | context/AccountingContext.tsx:139 | balances depend only on accounts, sides and amounts |
| Postings.StampKeepsTotals | context/AccountingContext.tsx:257-275 | fresh line ids change neither totals nor balances |
| Postings.RestampedKeepsTotals | context/AccountingContext.tsx:257-275 | lines that differ only in their ids have the same side totals and balances |
| Engine.DocumentLinesBalance | context/AccountingContext.tsx:247-278 | a document's lines balance iff its imbalance is within 0.01; always for the return books |
| Postings.SubsidiaryLinesBalance | context/AccountingContext.tsx:247-276 | purchases and sales balance iff total = subtotal - trade discount - positive cash discount; the return books always balance; the cash book yields no lines, so it would post an entry with no lines |
| Postings.InvoiceLinesBalance | context/AccountingContext.tsx:253-276 | the documents the invoice form builds balance whenever the cash discount is not negative |
| Postings.UnitRate | context/AccountingContext.tsx:294 | rate times quantity gives the amount when quantity is positive; otherwise the rate is 0 |
| Postings.StockMove | context/AccountingContext.tsx:288-296 | purchases and sales returns are receipts at the invoice figures; sales and purchase returns are issues at FIFO cost with rate = cost/quantity |
| Postings.OpeningLinesBalance | context/AccountingContext.tsx:384-393 | an opening balance debits and credits the positive cash and bank amounts alike |
| Postings.ReceiptLinesBalance | context/AccountingContext.tsx:404-411 | a receipt debits the positive cash, bank and discount and credits the counter account with their sum |
| Postings.PaymentLinesBalance | context/AccountingContext.tsx:412-419 | a payment is the mirror image of a receipt |
| Postings.ContraLinesBalance | context/AccountingContext.tsx:394-401 | a contra naming the bank balances; the other branch debits cash and credits bank with different amounts |
| Postings.CashBookLinesBalance | context/AccountingContext.tsx:384-421 | every opening balance and every non-negative receipt or payment posts balanced lines |
| Postings.ContraAlwaysDebitsBank | context/AccountingContext.tsx:394-397 | every contra the form produces debits bank and credits cash with the bank amount |
| Postings.MentionsBank | context/AccountingContext.tsx:395 | a name with "Bank" in it contains "bank" once lower-cased |
| Postings.DepreciationLines | context/AccountingContext.tsx:374 | two balanced lines: the charge debited to depreciation and credited to the asset |
| Fiscal.Contribution | context/AccountingContext.tsx:316-329 | what one account adds to each bucket: nothing when negligible, nominal accounts only to trading or profit and loss, drawings never to equity |
| Fiscal.AccumulateNonNegative | context/AccountingContext.tsx:316-329 | the trading, profit and loss and liability buckets are never negative |
| Fiscal.NegligibleAccountIgnored | context/AccountingContext.tsx:318 | an account whose balance is below 0.001 in size changes no bucket |
| Fiscal.AccumulateAccounts | context/AccountingContext.tsx:316-329 | the loop over the accounts computes the buckets |
| Fiscal.ClosingStockIsReceivedMinusIssued | context/AccountingContext.tsx:338 | closing stock is the value received minus the value issued |
| Fiscal.Drawings | context/AccountingContext.tsx:344 | the drawings total is never negative |
| Fiscal.FinishFacts | context/AccountingContext.tsx:340-367 | gross and net profit and loss are each exclusive, equal the right side differences, and equity is accumulated equity less drawings plus the net result |
| Fiscal.AnalysisFacts | context/AccountingContext.tsx:307-368 | the analysis of a store has exclusive results, closing stock = received - issued value, non-negative opening stock and liabilities |
| Fiscal.FindNamedBalance | context/AccountingContext.tsx:331-337 | the balance of the first account with exactly the name, or 0 |
| Fiscal.GetFiscalAnalysis | context/AccountingContext.tsx:307-368 | the method computes the analysis |
| Depreciation.AccumulatedIgnoresOrdinaryEntry | context/AccountingContext.tsx:428-430 | only depreciation entries add to accumulated depreciation |
| Depreciation.AssetRecord | context/AccountingContext.tsx:426-431 | an asset's cost is its balance plus accumulated depreciation |
| Depreciation.EligibleAssets | context/AccountingContext.tsx:425-433 | no more records than accounts |
| Depreciation.EligibleSound | context/AccountingContext.tsx:425-433 | every record is a tangible asset of the registry with balance above 0.1 |
| Depreciation.EligibleComplete | context/AccountingContext.tsx:425-433 | every such account is listed |
| Depreciation.FindAsset | components/DepreciationManagerView.tsx:24 | the selected asset, or no asset has the id |
| Depreciation.Calculate | components/DepreciationManagerView.tsx:26-34 | no asset gives 0 and 0; WDV charges the rate on the current balance, SLM the rate on the cost; charge plus net value is the current balance, and a zero rate charges nothing |
| Depreciation.WdvStaysWithinBookValue | components/DepreciationManagerView.tsx:29-31 | under WDV with a rate in 0..100, the net value stays between 0 and the balance |
| Depreciation.SlmChargesOriginalCost | components/DepreciationManagerView.tsx:29-30 | under SLM the charge is the rate applied to balance plus depreciation already charged |
| Depreciation.ClampRate | components/DepreciationManagerView.tsx:190 | the rate is clamped to 0..100 and kept when already inside |
| Depreciation.HandlePost | components/DepreciationManagerView.tsx:36-55 | nothing is posted without an asset or while posting; otherwise the asset, charge, date and narration |
| TrialBalance.RowFor | components/TrialBalanceView.tsx:33-47 | debit column iff balance > 0.001, credit iff < -0.001, never both; anomaly iff size > 0.01, no "return" in the name and the balance on the wrong side for the type |
| TrialBalance.SumsSnoc | components/TrialBalanceView.tsx:37-38 | adding a row adds its columns to the sums |
| TrialBalance.TotalsAreShownColumns | components/TrialBalanceView.tsx:37-48 | the totals, accumulated before the filter, are the sums of the shown columns |
| TrialBalance.RowsSound | components/TrialBalanceView.tsx:48 | every shown row is the row of a registry account with a line or code 1001 |
| TrialBalance.RowsComplete | components/TrialBalanceView.tsx:48 | every account with a line, and the cash account, is shown |
| TrialBalance.TrialBalanced | components/TrialBalanceView.tsx:53-54 | balanced iff the totals differ by less than 0.01 |
| TrialBalance.BuildTrialBalance | components/TrialBalanceView.tsx:15-51 | the loops compute the rows and the two totals |
| LedgerView.FirstLineFor | components/LedgerView.tsx:20 | the first line of the entry on the account, or none is |
| LedgerView.Opposite | components/LedgerView.tsx:23 | the lines of the other side, in order |
| LedgerView.Names | components/LedgerView.tsx:30 | the account names of the lines, in order |
| LedgerView.ParticularsShape | components/LedgerView.tsx:24-33 | "To " or "By " by the line's side, then the one opposite name, the names joined by " & ", or "Self (Opening/Adj)" |
| LedgerView.RowFor | components/LedgerView.tsx:19-41 | an entry gives a row iff it touches the account, with the first line's amount in its own column |
| LedgerView.EntryRows | components/LedgerView.tsx:19-41 | at most one row per entry |
| LedgerView.LedgerFacts | components/LedgerView.tsx:42-46 | the rows are sorted by date and are a permutation of the entries' rows; balance = debit total - credit total |
| LedgerView.SingleLineBalance | components/LedgerView.tsx:20 | with one line on the account, its signed amount is the entry's contribution |
| LedgerView.RowBalance | components/LedgerView.tsx:35-41 | with one line on the account, the row carries the entry's contribution |
| LedgerView.LedgerBalanceIsAccountBalance | components/LedgerView.tsx:44-46 | with one line per entry, the ledger balance is the account balance |
| LedgerView.EntryRowsBalance | components/LedgerView.tsx:44-46 | with one line per entry, the row totals differ by the account balance |
| LedgerView.SecondLineNotShown | components/LedgerView.tsx:20 | an entry debiting an account 5 and 7 shows 5 in the ledger while the balance is 12 |
| LedgerView.OnlyFirstLineShown | components/LedgerView.tsx:20 | only the first line's amount reaches the ledger |
| LedgerView.TwoDebitsCounted | context/AccountingContext.tsx:139 | the journal balance counts both lines |
| LedgerView.Ledgers | components/LedgerView.tsx:17-56 | every ledger listed has rows or code 1001 or 2001 |
| LedgerView.TouchedLedgerShown | components/LedgerView.tsx:55 | an account some entry touches has its ledger listed |
| LedgerView.EntryRowsNonEmpty | components/LedgerView.tsx:19-41 | an entry touching the account gives it a row |
| LedgerView.FilteredLedgers | components/LedgerView.tsx:58-61 | a ledger is kept iff its name contains the term ignoring case or its code contains it |
| LedgerView.EmptySearchKeepsAll | components/LedgerView.tsx:58-61 | an empty search keeps every ledger in order |
| FinalAccounts.BalanceRecord | components/FinalAccountsView.tsx:25-28 | the raw and absolute balance and the debit and credit flags |
| FinalAccounts.LedgerBalances | components/FinalAccountsView.tsx:15-29 | every record listed has a balance above 0.001 in size |
| FinalAccounts.LedgerBalancesSound | components/FinalAccountsView.tsx:15-29 | each record is the balance record of a registry account |
| FinalAccounts.LedgerBalancesComplete | components/FinalAccountsView.tsx:29 | every account above 0.001 in size is listed |
| FinalAccounts.BuildLedgerBalances | components/FinalAccountsView.tsx:15-29 | the nested loops compute the listed balances |
| FinalAccounts.Select | components/FinalAccountsView.tsx:47-96 | the filter keeps exactly the records satisfying the predicate, in order |
| FinalAccounts.NetFiguresNonNegative | components/FinalAccountsView.tsx:36-42 | net sales and net purchases are never negative and are the differences when those are not |
| FinalAccounts.TradingAccountCloses | components/FinalAccountsView.tsx:52-57 | gross profit and loss exclusive, their difference is direct income less direct expenses, both sides total the trading total |
| FinalAccounts.ProfitAndLossCloses | components/FinalAccountsView.tsx:59-67 | net profit and loss exclusive, both sides total the P&L total, and the net result is the gross result plus indirect income less indirect expenses |
| FinalAccounts.NetCapitalRollForward | components/FinalAccountsView.tsx:69-74 | capital = opening capital + net result - drawings |
| FinalAccounts.CashAndBankOnOneSide | components/FinalAccountsView.tsx:88-102 | the side totals, with cash and bank each counted on the asset side when positive and the liability side when negative |
| FinalAccounts.PartsOfBalance | components/FinalAccountsView.tsx:88-102 | each balance lands on exactly one side and their difference is the balance |
| FinalAccounts.DifferenceNonNegative | components/FinalAccountsView.tsx:108 | the balance-sheet difference is never negative and is 0 iff the sides agree |
| InventoryRegister.LifoIssue | components/InventoryView.tsx:43-59 | an issue keeps no more batches than it had |
| InventoryRegister.IssueFromBatches | components/InventoryView.tsx:43-59 | the backward loop with splice computes the issue from the newest batch |
| InventoryRegister.SpliceOrUpdate | components/InventoryView.tsx:53-58 | an emptied batch is spliced out, any other updated in place |
| InventoryRegister.ResumeStep | components/InventoryView.tsx:47-59 | one step of the backward loop |
| InventoryRegister.ResumeDone | components/InventoryView.tsx:49 | the loop stops when nothing is needed or no batch is left |
| InventoryRegister.LifoIssueTakes | components/InventoryView.tsx:51-58 | with positive batches, the issue takes min(needed, total held) and leaves only positive batches |
| InventoryRegister.PositiveTotal | components/InventoryView.tsx:17 | positive batches hold a non-negative total |
| InventoryRegister.TotalQtyAppend | components/InventoryView.tsx:40 | appending a batch adds its quantity |
| InventoryRegister.ApplyTxn | components/InventoryView.tsx:37-70 | a receipt adds quantity, value and a batch; an issue lowers quantity by the full request and value by the cost found, with rate = cost/quantity; the running balances follow |
| InventoryRegister.IssueCostFromBatches | components/InventoryView.tsx:61-64 | an issue is re-costed at what the batches it consumed cost |
| InventoryRegister.Replay | components/InventoryView.tsx:29-71 | one register row per movement |
| InventoryRegister.SummaryQtyIsStockBalance | components/InventoryView.tsx:38-61 | each item's summarised quantity is its stock balance |
| InventoryRegister.BatchesStayPositive | components/InventoryView.tsx:56-58 | with positive receipts, no batch is ever empty or negative |
| InventoryRegister.Reversed | components/InventoryView.tsx:74 | newest first: the rows in reverse order |
| InventoryRegister.ReplayOrder | components/InventoryView.tsx:29 | the movements are replayed in ascending date order, each exactly once |
| InventoryRegister.SummaryQtyOrderFree | components/InventoryView.tsx:29-61 | the summaries do not depend on the order the store holds the movements in |
| InventoryRegister.SortInPlace | components/InventoryView.tsx:29 | the store's own array ends up sorted by date, ties in order |
| InventoryRegister.ApplyStep | components/InventoryView.tsx:37-70 | one movement replayed, the issue by the backward loop |
| InventoryRegister.ReplayMovements | components/InventoryView.tsx:29-71 | the loop over the sorted movements computes the summaries and rows |
| InventoryRegister.ProcessStockRegister | components/InventoryView.tsx:25-77 | sorts the store's array in place and returns the newest-first register and the summaries |
| InventoryRegister.RegisterIsLastInFirstOut | components/InventoryView.tsx:47 | batches 10 at 5 then 10 at 7: an issue of 15 costs 95 here, where FIFO costs 85 |
| SubsidiaryBooks.SubTotalAppend | components/SubsidiaryBooksView.tsx:59 | the subtotal of a concatenation is the sum of the subtotals |
| SubsidiaryBooks.Totals | components/SubsidiaryBooksView.tsx:59-62 | subtotal is the sum of amounts, trade discount is subtotal times percent / 100, total is subtotal less both discounts |
| SubsidiaryBooks.NoDiscountTotal | components/SubsidiaryBooksView.tsx:59-62 | without discounts the total is the subtotal |
| SubsidiaryBooks.ApplyEdit | components/SubsidiaryBooksView.tsx:92-96 | editing quantity or rate resets the amount to quantity times rate; other edits keep it |
| SubsidiaryBooks.HandleItemChange | components/SubsidiaryBooksView.tsx:89-101 | only the line with the id changes, by the edit |
| SubsidiaryBooks.SelectOne | components/SubsidiaryBooksView.tsx:109-118 | rate is the last purchase rate if nonzero, else the line's rate; amount = quantity times rate; name and unit from the item |
| SubsidiaryBooks.SelectInventoryItem | components/SubsidiaryBooksView.tsx:103-123 | only the line with the id changes |
| SubsidiaryBooks.AddItem | components/SubsidiaryBooksView.tsx:125 | one blank line is appended and the subtotal is unchanged |
| SubsidiaryBooks.WithoutId | components/SubsidiaryBooksView.tsx:126 | the lines with other ids, in order |
| SubsidiaryBooks.RemoveItem | components/SubsidiaryBooksView.tsx:126 | the last line is never removed |
| SubsidiaryBooks.RemoveItemKeepsALine | components/SubsidiaryBooksView.tsx:126 | with distinct ids, removing leaves at least one line |
| SubsidiaryBooks.RemoveOneId | components/SubsidiaryBooksView.tsx:126 | with distinct ids, removing an id present removes exactly one line |
| SubsidiaryBooks.KeepAll | components/SubsidiaryBooksView.tsx:126 | removing an absent id keeps every line |
| SubsidiaryBooks.FirstShortage | components/SubsidiaryBooksView.tsx:133-142 | the first linked line asking for more than its live stock |
| SubsidiaryBooks.NoShortageMeansEachLineFits | components/SubsidiaryBooksView.tsx:133-142 | with no shortage, every linked line fits its stock on its own |
| SubsidiaryBooks.LinesCheckedSeparately | components/SubsidiaryBooksView.tsx:133-142 | two lines of 6 against a stock of 10 each pass, though together they exceed it |
| SubsidiaryBooks.CheckStock | components/SubsidiaryBooksView.tsx:132-143 | the guard loop with early return finds the first shortage |
| SubsidiaryBooks.NewDocument | components/SubsidiaryBooksView.tsx:145-159 | the reference is kept iff the book is a return book; the totals follow the form |
| SubsidiaryBooks.SavedInvoiceBalances | components/SubsidiaryBooksView.tsx:145-162 | a saved purchase or sales invoice with non-negative cash discount posts balanced lines |
| SubsidiaryBooks.HandleSaveEntry | components/SubsidiaryBooksView.tsx:128-168 | refused without a party or on a stock shortage for an outward book, with nothing changed; otherwise the document is recorded, posted iff its imbalance is within 0.01 with its date, narration and `PostsDocumentLines`, and its movements are `Stocked` |
| JournalIde.Pushed | components/JournalIDE.tsx:20-22 | the history up to the current state, then the new one, keeping the newest 50 |
| JournalIde.PushedKeepsPast | components/JournalIDE.tsx:20-22 | a push onto a history that is not full keeps every earlier state |
| JournalIde.PushedKeepsCurrent | components/JournalIDE.tsx:20-21 | after a push, the previous state is the one that was current |
| JournalIde.History.constructor | components/JournalIDE.tsx:15-16 | a history of the initial state alone |
| JournalIde.History.SetState | components/JournalIDE.tsx:18-25 | a no-op on an equal state; otherwise the future is dropped, the state pushed, the index at the end and redo impossible |
| JournalIde.History.Undo | components/JournalIDE.tsx:27 | moves back one step iff undo is possible |
| JournalIde.History.Redo | components/JournalIDE.tsx:28 | moves forward one step iff redo is possible |
| JournalIde.History.ResetHistory | components/JournalIDE.tsx:35 | a history of the given state alone |
| JournalIde.UndoThenRedo | components/JournalIDE.tsx:27-28 | undo then redo comes back to the same state |
| JournalIde.EditorBalancedIsAccepted | components/JournalIDE.tsx:65 | what the editor calls balanced, `addEntry` accepts |
| JournalIde.EmptyEntryRefused | components/JournalIDE.tsx:65 | an entry of no amounts is refused by the editor though `addEntry` would accept it |
| JournalIde.TotalsSnoc | components/JournalIDE.tsx:62-63 | a new line adds its amount to its own side |
| JournalIde.AddLine | components/JournalIDE.tsx:75-78 | the new line is on the given side with amount max(0, other side - own side) |
| JournalIde.AddLineFillsShortfall | components/JournalIDE.tsx:76 | after adding, the own side is max(own, other) and the other side unchanged |
| JournalIde.LinesWithout | components/JournalIDE.tsx:80 | the lines with other ids |
| JournalIde.RemoveLine | components/JournalIDE.tsx:80 | removes only when more than two lines remain |
| JournalIde.RemoveLineKeepsTwo | components/JournalIDE.tsx:80 | with distinct ids, at least two lines remain |
| JournalIde.NoneRemoved | components/JournalIDE.tsx:80 | removing an absent id keeps every line |
| JournalIde.AtMostOneRemoved | components/JournalIDE.tsx:80 | with distinct ids, at most one line goes |
| JournalIde.SelectAccount | components/JournalIDE.tsx:89-91 | only the line with the id takes the account's name and id; the others and the narration are kept |
| JournalIde.SelectInLines | components/JournalIDE.tsx:90 | the same number of lines; exactly the lines with the id take the account's name and id |
| JournalIde.SelectKeepsTotals | components/JournalIDE.tsx:90 | choosing an account changes neither total |
| JournalIde.ContextualMapping | components/JournalIDE.tsx:104-128 | the suggestion as written: creditor for purchase or sales-return words, debtor for sales or purchase-return words |
| JournalIde.ContainsPrefix | components/JournalIDE.tsx:106-109 | a name containing "purchase return" contains "purchase" |
| JournalIde.ReturnsMentionTheirBook | components/JournalIDE.tsx:106-109 | a line mentioning a return book also mentions its book |
| JournalIde.PurchaseReturnSuggestsCreditor | components/JournalIDE.tsx:114-119 | a purchase return on another line suggests a sundry creditor |
| JournalIde.CorrectedContextualMapping | components/JournalIDE.tsx:114-120 | the purchase and sales words count only outside their return names |
| JournalIde.CorrectedPurchaseReturnSuggestsDebtor | components/JournalIDE.tsx:117-119 | corrected, a purchase return suggests a sundry debtor |
| JournalIde.CorrectedAgreesWithoutReturns | components/JournalIDE.tsx:104-128 | without return names, both versions agree |
| JournalIde.PostErrors | components/JournalIDE.tsx:131-134 | one error for empty narration, for a blank account and for imbalance, and none iff all three pass |
| JournalIde.HandlePost | components/JournalIDE.tsx:130-146 | posts iff there are no errors; a post puts the working entry first; the history then holds the blank entry after the posted one |
| CashBook.FilteredAccounts | components/CashBookView.tsx:32-36 | nothing for an empty query; otherwise the accounts whose name contains the query, never cash or bank |
| CashBook.Suggestions | components/CashBookView.tsx:35 | membership iff the lower-cased name contains the query and is neither cash nor bank |
| CashBook.ToggleContra | components/CashBookView.tsx:89-95 | switching contra on clears the selection and names the other side of the pair |
| CashBook.Particulars | components/CashBookView.tsx:65 | "Balance b/d", "Contra Entry" or "Being receipt from X" / "Being payment to X" |
| CashBook.EntryFor | components/CashBookView.tsx:59-72 | the record carries the form's figures, the account or the contra name |
| CashBook.HandlePostAsWritten | components/CashBookView.tsx:40-77 | registration opens iff no account is found and the query is not blank; a typed name found is not applied in time |
| CashBook.HandlePostCorrected | components/CashBookView.tsx:40-77 | posts iff an account is resolved (or contra) and the value is positive |
| CashBook.TypedNameIsNotPosted | components/CashBookView.tsx:41-64 | a typed existing name: as written nothing is posted; corrected it posts against that account |
| CashBook.CorrectedAgreesWhenSelected | components/CashBookView.tsx:40-77 | wherever the handler as written reaches a decision, the corrected one decides the same |
| CashBook.ContraPostMentionsBank | components/CashBookView.tsx:64 | both contra names contain "bank" |
| CashBook.HandlePost | components/CashBookView.tsx:40-77 | the store is changed iff the handler as written returns a post; then the entry is recorded and posted as `AddCashBookEntry` says, with the form's date; a contra debits Bank A/c and credits Cash A/c with the bank amount |
| CashBook.HandlePostAsIntended | components/CashBookView.tsx:40-77 | the same store facts with the corrected handler deciding |
| AccountProfileModal.ClassificationMapPartition | components/AccountProfileModal.tsx:27-54 | each classification is listed under exactly one type, and no list repeats |
| AccountProfileModal.Open | components/AccountProfileModal.tsx:63-83 | a found account loads its type, classification and journal balance; otherwise nothing changes |
| AccountProfileModal.SelectType | components/AccountProfileModal.tsx:129 | changing the type clears the classification |
| AccountProfileModal.SelectClassification | components/AccountProfileModal.tsx:27-54 | a classification offered is one of the selected type |
| AccountProfileModal.DerivedCategory | components/AccountProfileModal.tsx:90-92 | a category iff revenue or expense |
| AccountProfileModal.DerivedCategoryIsAlwaysDirect | components/AccountProfileModal.tsx:91 | every revenue or expense classification derives DIRECT |
| AccountProfileModal.ProfilePatch | components/AccountProfileModal.tsx:87-93 | the update sets type, classification and category only |
| AccountProfileModal.ProfileUpdateKeepsIdentity | components/AccountProfileModal.tsx:87-93 | ids, names and codes are kept and only the account with the id changes |
| AccountProfileModal.HandleUpdate | components/AccountProfileModal.tsx:85-96 | updates iff an account is loaded and a classification chosen |
| AccountProfiles.GetBalance | components/AccountProfiles.tsx:26-42 | the fold gives the journal balance, whatever the type, and 0 for an untouched account |
| AccountProfiles.DisplayedBalance | components/AccountProfiles.tsx:119 | the balance is shown without its sign |
| AccountProfiles.DisplayHidesSide | components/AccountProfiles.tsx:119 | opposite balances are shown alike |
| AccountProfiles.FilteredAccounts | components/AccountProfiles.tsx:44-47 | an account is kept iff its name contains the term ignoring case or its code contains it |
| AccountProfiles.EmptySearchKeepsAll | components/AccountProfiles.tsx:44-47 | an empty search keeps every account in order |

## Left out

- Loading and saving through `localStorage`, and JSON export and import (context/AccountingContext.tsx:88-123, 438-439): storage I/O and a JSON library.
- Saved notes (`addSavedNote`, `deleteSavedNote`): note storage outside the books.
- `formatAmount` and every `toLocaleString`/`toFixed` rendering: display only.
- `isDateInFiscalYear`: it is the constant true.
- JavaScript `Date` parsing: dates are integers and compare as the parsed times would.
- Floating-point rounding: amounts are exact reals, and the tolerances 0.01, 0.001, 0.1 and 1 are kept as literal comparisons.
- `uuidv4()` and `Math.random()`: they are the `Fresh` source fixed when the store is built. The model does not say ids are unique.
- `hardReset`'s removal of the saved state and the page reload.
- React rendering, modals, dropdowns, animations and the timers of the depreciation and ledger screens.
- The subsidiary-book party suggestions, the reference-document search and `handleSelectReference` (SubsidiaryBooksView.tsx:68-87), and the journal editor's account suggestions: they only offer choices.
- `updateLine` and `validateNumericInput` in the journal editor: free-form field edits and input sanitising.
- The cash-book receipt and payment lists and the current-position panel: they are filters and a call of `balanceCashBook`.
- `Engine.Store.PostDepreciation`, `AddCashBookEntry` and `PostSubsidiaryEntry`: entries go through `addEntry`, so the journal keeps every entry balanced within 0.01. The model does not prove that every entry these translators post is exactly balanced.
- AccountProfiles.GetBalance: the source's `type` parameter is received and ignored. The model's `kind` parameter is likewise unused.
- JsText.Lower, JsText.Upper and JsText.Trim: ASCII letters and ASCII white space only; JavaScript's Unicode case mapping and white-space set are not modelled.
- The `code` field the source copies onto journal lines (context/AccountingContext.tsx:257-275, 374; components/JournalIDE.tsx:90): `JournalLine` has no code, so `JournalIde.SelectAccount` sets the name and id only.
- Engine.Store.PostSubsidiaryEntry: the document-level contract states the movements, counts and goods' ids and names; the purchase rate update is stated per line, on `Engine.Store.StockLine`.
- InventoryRegister.SummaryQtyIsStockBalance: it states the quantity; the summary value is only characterised step by step, by `ApplyTxn`.

## Findings

| source | as written | input that shows it | evidently intended | confidence | as-written member | corrected member |
|---|---|---|---|---|---|---|
| components/CashBookView.tsx:41-64 | a name typed for an existing account is selected by a state update the rest of the handler does not see, so `selectedAcc!.name` dereferences null and nothing is posted | a receipt of 100 in cash, nothing selected, not contra, the query "Capital A/c" | post the entry against the account the typed name finds | not executed | CashBook.TypedNameIsNotPosted | CashBook.HandlePostCorrected |
| components/JournalIDE.tsx:106-119 | `hasPurchase` is true whenever `hasPR` is, so a purchase return on another line suggests a sundry creditor and the `hasPR` test is never reached | a line naming a new party beside a line "Purchase Return A/c" | a purchase return's party is a debtor | not executed | JournalIde.PurchaseReturnSuggestsCreditor | JournalIde.CorrectedPurchaseReturnSuggestsDebtor |
