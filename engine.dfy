/**
 * The accounting store (`AccountingProvider`): the account list, the
 * journal, the subsidiary-book documents, the cash book, the stock
 * transactions and the inventory items, with the operations that change
 * them. Every operation reads the stores as they stood when it was called
 * and appends what it creates at the end, as the React state updates do.
 */
module Engine {
  import opened Model
  import opened Journal
  import opened JsText
  import opened Registry
  import opened Stock
  import opened Postings

  /** The six stores at one moment. */
  datatype Snapshot = Snapshot(
    accounts: seq<Account>,
    entries: seq<JournalEntry>,
    subsidiaryEntries: seq<SubsidiaryEntry>,
    cashBookEntries: seq<CashBookEntry>,
    stockTransactions: seq<StockTransaction>,
    inventoryItems: seq<InventoryItem>)

  /** The transaction id `addEntry` stamps: `TXN-` and eight characters of a fresh id. */
  function TransactionId(u: string): (r: string)
    ensures StartsWith(r, "TXN-")
    ensures |r| == 4 + (if |u| < 8 then |u| else 8)
  {
    "TXN-" + Prefix(u, 8)
  }

  /** An entry without a non-empty transaction id receives a generated one. */
  predicate NeedsTransactionId(e: JournalEntry) {
    !(e.transactionId.Some? && e.transactionId.value != "")
  }

  /**
   * `generateDocumentId`: the first letter of the book's name, a dash and
   * the first four characters of a fresh id, upper-cased.
   */
  function DocumentId(book: BookType, u: string): (r: string)
    ensures |r| == 2 + (if |u| < 4 then |u| else 4)
    ensures r[0] == BookName(book)[0] && r[1] == '-'
  {
    [BookName(book)[0]] + "-" + Upper(Prefix(u, 4))
  }

  /**
   * A book and its return book share the initial, so from the same fresh
   * id a sale and a sales return receive the same document id (likewise a
   * purchase and a purchase return); the three other initials differ.
   */
  lemma DocumentIdPrefixes(u: string)
    ensures DocumentId(Sales, u) == DocumentId(SalesReturn, u)
    ensures DocumentId(Purchase, u) == DocumentId(PurchaseReturn, u)
    ensures DocumentId(Sales, u)[0] != DocumentId(Purchase, u)[0]
    ensures DocumentId(Sales, u)[0] != DocumentId(Cash, u)[0]
    ensures DocumentId(Purchase, u)[0] != DocumentId(Cash, u)[0]
  {
  }

  /** `inventoryItems.find` by name, compared lower-cased against the trimmed description. */
  function FindItem(items: seq<InventoryItem>, description: string): (r: Option<InventoryItem>)
    ensures r.Some? ==> r.value in items && Lower(r.value.name) == Lower(Trim(description))
    ensures r.None? ==> forall k :: 0 <= k < |items| ==> Lower(items[k].name) != Lower(Trim(description))
  {
    if items == [] then None
    else if Lower(items[0].name) == Lower(Trim(description)) then Some(items[0])
    else
      var r := FindItem(items[1..], description);
      assert forall k :: 1 <= k < |items| ==> items[1..][k - 1] == items[k];
      r
  }

  /** `updateInventoryItemRate`: every item with the id takes the new last purchase rate. */
  function UpdateItemRate(items: seq<InventoryItem>, id: string, rate: real): (r: seq<InventoryItem>)
    ensures |r| == |items|
    ensures forall k :: 0 <= k < |r| ==> r[k] == if items[k].id == id then items[k].(lastPurchaseRate := rate) else items[k]
  {
    if items == [] then []
    else [if items[0].id == id then items[0].(lastPurchaseRate := rate) else items[0]] + UpdateItemRate(items[1..], id, rate)
  }

  /** An invoice line the posting turns into a stock movement: its item is known, or it has a name to create one by. */
  predicate Stockable(items: seq<InventoryItem>, line: InvoiceItem) {
    FindItem(items, line.description).Some? || Trim(line.description) != ""
  }

  /** An invoice line for which the posting creates a new inventory item. */
  predicate CreatesItem(items: seq<InventoryItem>, line: InvoiceItem) {
    FindItem(items, line.description).None? && Trim(line.description) != ""
  }

  function CountStockable(items: seq<InventoryItem>, lines: seq<InvoiceItem>): nat {
    if lines == [] then 0
    else CountStockable(items, lines[..|lines| - 1]) + (if Stockable(items, lines[|lines| - 1]) then 1 else 0)
  }

  function CountCreated(items: seq<InventoryItem>, lines: seq<InvoiceItem>): nat {
    if lines == [] then 0
    else CountCreated(items, lines[..|lines| - 1]) + (if CreatesItem(items, lines[|lines| - 1]) then 1 else 0)
  }

  /**
   * Because the lookup reads the inventory as it stood before the
   * document, two lines of one document naming the same new good create
   * two inventory items.
   */
  lemma DuplicateNewItems(items: seq<InventoryItem>, line: InvoiceItem)
    requires CreatesItem(items, line)
    ensures CountCreated(items, [line, line]) == 2
  {
    assert [line, line][..1] == [line];
    assert [line][..0] == [];
    assert CountCreated(items, [line]) == 1;
  }

  /** One more line adds its own contribution to both counts. */
  lemma CountStep(items: seq<InventoryItem>, lines: seq<InvoiceItem>, i: nat)
    requires i < |lines|
    ensures CountStockable(items, lines[..i + 1]) == CountStockable(items, lines[..i]) + (if Stockable(items, lines[i]) then 1 else 0)
    ensures CountCreated(items, lines[..i + 1]) == CountCreated(items, lines[..i]) + (if CreatesItem(items, lines[i]) then 1 else 0)
  {
    assert lines[..i + 1][..i] == lines[..i];
  }

  /** `balanceCashBook`: receipts minus payments of one column (cash or bank). */
  function ColumnTotal(es: seq<CashBookEntry>, kind: CashType, bank: bool): real {
    if es == [] then 0.0
    else
      var e := es[|es| - 1];
      ColumnTotal(es[..|es| - 1], kind, bank) + (if e.kind != kind then 0.0 else if bank then e.bankAmount else e.cashAmount)
  }

  datatype CashPosition = CashPosition(cash: real, bank: real)

  /** `balanceCashBook(date)`: the date is not used. */
  function BalanceCashBook(es: seq<CashBookEntry>, date: int): CashPosition {
    CashPosition(ColumnTotal(es, Receipt, false) - ColumnTotal(es, Payment, false),
                 ColumnTotal(es, Receipt, true) - ColumnTotal(es, Payment, true))
  }

  /** A receipt adds to a column and a payment takes from it. */
  function ColumnDelta(e: CashBookEntry, bank: bool): real {
    var amount := if bank then e.bankAmount else e.cashAmount;
    if e.kind == Receipt then amount else -amount
  }

  /** The position does not depend on the date asked about. */
  lemma BalanceCashBookIgnoresDate(es: seq<CashBookEntry>, d1: int, d2: int)
    ensures BalanceCashBook(es, d1) == BalanceCashBook(es, d2)
  {
  }

  /** Recording one more entry moves each position by that entry's signed amount. */
  lemma BalanceCashBookAppend(es: seq<CashBookEntry>, e: CashBookEntry, date: int)
    ensures BalanceCashBook(es + [e], date).cash == BalanceCashBook(es, date).cash + ColumnDelta(e, false)
    ensures BalanceCashBook(es + [e], date).bank == BalanceCashBook(es, date).bank + ColumnDelta(e, true)
  {
    assert (es + [e])[..|es|] == es;
  }

  /**
   * A purchase or sale whose total is the subtotal less the trade and
   * cash discounts, with no negative cash discount, as the invoice form
   * builds it.
   */
  predicate DocumentBalances(doc: SubsidiaryEntry) {
    doc.bookType in {Purchase, Sales} && doc.cashDiscountAmount >= 0.0 &&
    doc.totalAmount == doc.subTotal - doc.discountAmount - doc.cashDiscountAmount
  }

  /** `hasOpeningBalance`. */
  predicate HasOpeningBalance(es: seq<CashBookEntry>) {
    exists k :: 0 <= k < |es| && es[k].isOpeningBalance
  }

  /** The documents of one book, in store order. */
  function OfBook(docs: seq<SubsidiaryEntry>, book: BookType): (r: seq<SubsidiaryEntry>)
    ensures forall d :: d in r <==> d in docs && d.bookType == book
  {
    if docs == [] then []
    else
      var rest := OfBook(docs[1..], book);
      assert forall d :: d in docs <==> d == docs[0] || d in docs[1..];
      (if docs[0].bookType == book then [docs[0]] else []) + rest
  }

  /**
   * `getValidReferenceDocs`: a purchase return may refer to a purchase and
   * a sales return to a sale; the other books refer to nothing.
   */
  function ValidReferenceDocs(docs: seq<SubsidiaryEntry>, book: BookType): (r: seq<SubsidiaryEntry>)
    ensures book == PurchaseReturn ==> forall d :: d in r <==> d in docs && d.bookType == Purchase
    ensures book == SalesReturn ==> forall d :: d in r <==> d in docs && d.bookType == Sales
    ensures book !in {PurchaseReturn, SalesReturn} ==> r == []
  {
    if book == PurchaseReturn then OfBook(docs, Purchase)
    else if book == SalesReturn then OfBook(docs, Sales)
    else []
  }

  /**
   * `getAccountByName(name) || createAccount(name, kind, cls, cat)`, seen
   * from the account it yields: the account the lookup finds in
   * `snapshot`, or else a new account of that name and profile.
   */
  predicate ResolvedByName(snapshot: seq<Account>, name: string, kind: AccountType, cls: Classification,
                           cat: Option<Category>, a: Account) {
    match FindByName(snapshot, name)
    case Some(found) => a == found
    case None => a.name == Trim(name) && a.kind == kind && a.classification == cls && a.category == cat
  }

  /** The same for the exact-name lookup `accounts.find(a => a.name === name) || createAccount(...)`. */
  predicate ResolvedExact(snapshot: seq<Account>, name: string, kind: AccountType, cls: Classification,
                          cat: Option<Category>, a: Account) {
    match FindNamed(snapshot, name)
    case Some(found) => a == found
    case None => a.name == Trim(name) && a.kind == kind && a.classification == cls && a.category == cat
  }

  /** An account resolved by an unpadded exact name carries that name, found or created. */
  lemma ResolvedExactName(snapshot: seq<Account>, name: string, kind: AccountType, cls: Classification,
                          cat: Option<Category>, a: Account)
    requires name != [] && !IsSpace(name[0]) && !IsSpace(name[|name| - 1])
    requires ResolvedExact(snapshot, name, kind, cls, cat, a)
    ensures a.name == name
  {
    TrimUnpadded(name);
  }

  // ---------------------------------------------------------------------
  // What `postSubsidiaryEntry` posts

  /**
   * The accounts a document posts to, resolved against `snapshot`: the
   * party by the document's party name, the book's main account, and for
   * a purchase or a sale with a positive cash discount the discount
   * account (received on purchases, allowed on sales).
   */
  predicate DocumentAccounts(snapshot: seq<Account>, doc: SubsidiaryEntry, party: Account, main: Account, disc: Option<Account>) {
    var book := doc.bookType;
    ResolvedByName(snapshot, doc.partyName, PartyType(book), PartyClassification(book), None, party) &&
    ResolvedByName(snapshot, MainAccountName(book), MainAccountType(book), MainClassification(book), Some(Direct), main) &&
    (disc.Some? <==> doc.cashDiscountAmount > 0.0 && (book == Purchase || book == Sales)) &&
    (disc.Some? && book == Purchase ==>
      ResolvedByName(snapshot, "Discount Received A/c", Revenue, IndirectRevenue, Some(Indirect), disc.value)) &&
    (disc.Some? && book == Sales ==>
      ResolvedByName(snapshot, "Discount Allowed A/c", Expense, IndirectExpense, Some(Indirect), disc.value))
  }

  /** The journal lines of `doc` over the accounts it resolved to. */
  function DocumentLines(doc: SubsidiaryEntry, party: Account, main: Account, disc: Option<Account>): seq<JournalLine> {
    SubsidiaryLines(doc.bookType, party, main, disc, doc.subTotal, doc.discountAmount, doc.totalAmount, doc.cashDiscountAmount)
  }

  /** `posted` are the lines `postSubsidiaryEntry` builds for `doc` against `snapshot`, under fresh ids. */
  ghost predicate PostsDocumentLines(snapshot: seq<Account>, doc: SubsidiaryEntry, posted: seq<JournalLine>) {
    exists party: Account, main: Account, disc: Option<Account> ::
      DocumentAccounts(snapshot, doc, party, main, disc) && Restamped(posted, DocumentLines(doc, party, main, disc))
  }

  /** Debits less credits of a document's lines, whatever accounts they post to. */
  function DocumentImbalance(doc: SubsidiaryEntry): real {
    var cd := CashDiscountPosted(doc.cashDiscountAmount);
    match doc.bookType
    case Purchase => doc.subTotal - doc.discountAmount - cd - doc.totalAmount
    case Sales => doc.totalAmount + cd - (doc.subTotal - doc.discountAmount)
    case _ => 0.0
  }

  /**
   * A document's lines balance exactly when its imbalance is within the
   * tolerance: always for the return books (and the cash book, which
   * posts an entry of no lines), and for every purchase or sale the
   * invoice form builds.
   */
  lemma DocumentLinesBalance(snapshot: seq<Account>, doc: SubsidiaryEntry, party: Account, main: Account, disc: Option<Account>)
    requires DocumentAccounts(snapshot, doc, party, main, disc)
    ensures Balanced(DocumentLines(doc, party, main, disc)) <==> Abs(DocumentImbalance(doc)) <= Tolerance
    ensures doc.bookType !in {Purchase, Sales} ==> Balanced(DocumentLines(doc, party, main, disc))
    ensures DocumentBalances(doc) ==> Balanced(DocumentLines(doc, party, main, disc))
  {
    SubsidiaryLinesBalance(doc.bookType, party, main, disc, doc.subTotal, doc.discountAmount, doc.totalAmount, doc.cashDiscountAmount);
  }

  /** The narration of a document's entry: `Being <book, lower-cased> posted from book`. */
  function DocumentNarration(book: BookType): string {
    "Being " + Lower(BookName(book)) + " posted from book"
  }

  /** The good `postSubsidiaryEntry` creates for a line naming an unknown one. */
  function NewItem(id: string, book: BookType, line: InvoiceItem): InventoryItem {
    InventoryItem(id, Trim(line.description), if line.unit == "" then "Pcs" else line.unit,
      if book == Purchase then line.rate else 0.0)
  }

  /**
   * `m` is the stock movement `postSubsidiaryEntry` makes of invoice line
   * `line`: on the good the line names (found in `items`, or else new
   * under the line's trimmed description), of the book's kind, dated and
   * referenced as the document, and at the invoice's rate and amount or,
   * for the FIFO-costed books, at the cost the ledger `txns` gives and the
   * rate that cost implies.
   */
  predicate MoveFor(txns: seq<StockTransaction>, items: seq<InventoryItem>, doc: SubsidiaryEntry,
                    line: InvoiceItem, m: StockTransaction) {
    (match FindItem(items, line.description)
     case Some(found) => m.itemId == found.id && m.itemName == found.name
     case None => m.itemName == Trim(line.description)) &&
    m.kind == StockKind(doc.bookType) && m.date == doc.date && m.quantity == line.quantity &&
    m.refDocId == doc.invoiceNumber &&
    if CostedAtFifo(doc.bookType) then
      m.amount == FifoCost(txns, items, m.itemId, line.quantity) && m.rate == UnitRate(m.amount, line.quantity)
    else
      m.amount == line.amount && m.rate == line.rate
  }

  /** What one invoice line does: its movement, the inventory after it and the fresh ids it used. */
  datatype LineEffect = LineEffect(move: Option<StockTransaction>, items: seq<InventoryItem>, used: nat)

  /**
   * One invoice line against the stores `txns` and `items` as they stood
   * before the document, with `store` the inventory so far and `uuid(k)`
   * the next fresh id: a new good when the line names an unknown one, the
   * movement, and for a purchase the good's last purchase rate.
   */
  function LineStep(doc: SubsidiaryEntry, line: InvoiceItem, txns: seq<StockTransaction>, items: seq<InventoryItem>,
                    store: seq<InventoryItem>, uuid: nat -> string, k: nat): LineEffect
  {
    var book := doc.bookType;
    var found := FindItem(items, line.description);
    if found.None? && Trim(line.description) == "" then LineEffect(None, store, 0)
    else
      var item := if found.Some? then found.value else NewItem(uuid(k), book, line);
      var used := if found.Some? then 1 else 2;
      var held := if found.Some? then store else store + [item];
      var cost := if CostedAtFifo(book) then FifoCost(txns, items, item.id, line.quantity) else 0.0;
      var move := StockMove(uuid(k + used - 1), book, doc.date, item, line, cost, doc.invoiceNumber);
      LineEffect(Some(move), if book == Purchase then UpdateItemRate(held, item.id, line.rate) else held, used)
  }

  /**
   * What a line's step promises: a movement exactly when the line is
   * stockable, valued as `MoveFor` says; one more good exactly when the
   * line names an unknown one; every good's id and name kept; and outside
   * a purchase no good changed at all.
   */
  predicate LineFacts(move: Option<StockTransaction>, after: seq<InventoryItem>, doc: SubsidiaryEntry, line: InvoiceItem,
                      txns: seq<StockTransaction>, items: seq<InventoryItem>, store: seq<InventoryItem>) {
    (move.Some? <==> Stockable(items, line)) &&
    (move.Some? ==> MoveFor(txns, items, doc, line, move.value)) &&
    |after| == |store| + (if CreatesItem(items, line) then 1 else 0) &&
    (forall j :: 0 <= j < |store| ==> after[j].id == store[j].id && after[j].name == store[j].name) &&
    (doc.bookType != Purchase ==> after[..|store|] == store)
  }

  /** `LineStep` keeps those promises. */
  lemma LineStepEffect(doc: SubsidiaryEntry, line: InvoiceItem, txns: seq<StockTransaction>, items: seq<InventoryItem>,
                       store: seq<InventoryItem>, uuid: nat -> string, k: nat)
    ensures var r := LineStep(doc, line, txns, items, store, uuid, k); LineFacts(r.move, r.items, doc, line, txns, items, store)
  {
  }

  /** The invoice lines that become stock movements, in order. */
  function StockableLines(items: seq<InventoryItem>, lines: seq<InvoiceItem>): (r: seq<InvoiceItem>)
    ensures |r| == CountStockable(items, lines)
    ensures forall l :: l in r <==> l in lines && Stockable(items, l)
  {
    if lines == [] then []
    else
      var last := lines[|lines| - 1];
      assert forall l :: l in lines <==> l in lines[..|lines| - 1] || l == last;
      StockableLines(items, lines[..|lines| - 1]) + (if Stockable(items, last) then [last] else [])
  }

  /** Movements that match their lines still match after one more line and its movement, if any. */
  lemma MovesSnoc(txns: seq<StockTransaction>, items: seq<InventoryItem>, doc: SubsidiaryEntry,
                  sl: seq<InvoiceItem>, moves: seq<StockTransaction>, line: InvoiceItem, m: Option<StockTransaction>)
    requires |moves| == |sl| && forall j :: 0 <= j < |sl| ==> MoveFor(txns, items, doc, sl[j], moves[j])
    requires m.Some? <==> Stockable(items, line)
    requires m.Some? ==> MoveFor(txns, items, doc, line, m.value)
    ensures var sl' := sl + (if Stockable(items, line) then [line] else []);
      var moves' := moves + (if m.Some? then [m.value] else []);
      |moves'| == |sl'| && forall j :: 0 <= j < |sl'| ==> MoveFor(txns, items, doc, sl'[j], moves'[j])
  {
    var sl' := sl + (if Stockable(items, line) then [line] else []);
    var moves' := moves + (if m.Some? then [m.value] else []);
    forall j | 0 <= j < |sl'|
      ensures MoveFor(txns, items, doc, sl'[j], moves'[j])
    {
      if j < |sl| {
        assert sl'[j] == sl[j] && moves'[j] == moves[j];
      }
    }
  }

  /**
   * What the lines `lines` of `doc` have done to the stock, the inventory
   * having been `store` before them: `moves` holds one movement per
   * stockable line, in order and valued as `MoveFor` says; `inv` holds the
   * goods there were, under their ids and names (outside a purchase
   * untouched), then one new good per line that named an unknown one.
   */
  predicate Stocked(doc: SubsidiaryEntry, txns: seq<StockTransaction>, items: seq<InventoryItem>, lines: seq<InvoiceItem>,
                    store: seq<InventoryItem>, moves: seq<StockTransaction>, inv: seq<InventoryItem>) {
    var sl := StockableLines(items, lines);
    |moves| == |sl| && (forall j :: 0 <= j < |sl| ==> MoveFor(txns, items, doc, sl[j], moves[j])) &&
    |inv| == |store| + CountCreated(items, lines) &&
    (forall j :: 0 <= j < |store| ==> inv[j].id == store[j].id && inv[j].name == store[j].name) &&
    (doc.bookType != Purchase ==> inv[..|store|] == store)
  }

  /** One more line, acting as `LineFacts` says, extends what the lines before it did. */
  lemma StockedSnoc(doc: SubsidiaryEntry, txns: seq<StockTransaction>, items: seq<InventoryItem>, lines: seq<InvoiceItem>,
                    line: InvoiceItem, store: seq<InventoryItem>, moves: seq<StockTransaction>, inv: seq<InventoryItem>,
                    move: Option<StockTransaction>, after: seq<InventoryItem>)
    requires Stocked(doc, txns, items, lines, store, moves, inv)
    requires LineFacts(move, after, doc, line, txns, items, inv)
    ensures Stocked(doc, txns, items, lines + [line], store, moves + (if move.Some? then [move.value] else []), after)
  {
    var all := lines + [line];
    assert all[..|all| - 1] == lines;
    MovesSnoc(txns, items, doc, StockableLines(items, lines), moves, line, move);
    if doc.bookType != Purchase {
      assert after[..|store|] == after[..|inv|][..|store|];
    }
  }

  // ---------------------------------------------------------------------
  // What `addCashBookEntry` and `postDepreciation` post

  /** The type a missing counter account is created with: revenue for a receipt, expense for a payment. */
  function CounterType(kind: CashType): AccountType {
    if kind == Receipt then Revenue else Expense
  }

  /**
   * The accounts a cash-book entry posts to, resolved against `snapshot`:
   * cash and bank by exact name; capital for an opening balance; for an
   * ordinary entry the counter account by the entry's account name and,
   * with a positive discount, the discount account (allowed on receipts,
   * received on payments).
   */
  predicate CashBookAccounts(snapshot: seq<Account>, e: CashBookEntry, cash: Account, bank: Account,
                             cap: Option<Account>, other: Option<Account>, disc: Option<Account>) {
    ResolvedExact(snapshot, "Cash A/c", Asset, CurrentAsset, None, cash) &&
    ResolvedExact(snapshot, "Bank A/c", Asset, CurrentAsset, None, bank) &&
    (e.isOpeningBalance <==> cap.Some?) &&
    (cap.Some? ==> ResolvedByName(snapshot, "Capital A/c", Equity, OwnerCapital, None, cap.value)) &&
    (!e.isOpeningBalance && !e.isContra <==> other.Some?) &&
    (other.Some? ==> ResolvedByName(snapshot, e.accountName, CounterType(e.kind), CurrentAsset, None, other.value)) &&
    (!e.isOpeningBalance && !e.isContra && e.discountAmount > 0.0 <==> disc.Some?) &&
    (disc.Some? && e.kind == Receipt ==>
      ResolvedByName(snapshot, "Discount Allowed A/c", Expense, IndirectExpense, Some(Indirect), disc.value)) &&
    (disc.Some? && e.kind == Payment ==>
      ResolvedByName(snapshot, "Discount Received A/c", Revenue, IndirectRevenue, Some(Indirect), disc.value))
  }

  /** `posted` are the lines `addCashBookEntry` builds for `e` against `snapshot`, under fresh ids. */
  ghost predicate PostsCashBookLines(snapshot: seq<Account>, e: CashBookEntry, posted: seq<JournalLine>) {
    exists cash: Account, bank: Account, cap: Option<Account>, other: Option<Account>, disc: Option<Account> ::
      CashBookAccounts(snapshot, e, cash, bank, cap, other, disc) && Restamped(posted, CashBookLines(e, cash, bank, cap, other, disc))
  }

  /** `posted` are the two lines of a depreciation charge, the depreciation account resolved against `snapshot`. */
  ghost predicate PostsDepreciationLines(snapshot: seq<Account>, asset: Account, amount: real, posted: seq<JournalLine>) {
    exists dep: Account ::
      ResolvedByName(snapshot, "Depreciation A/c", Expense, IndirectExpense, Some(Indirect), dep) &&
      Restamped(posted, DepreciationLines(dep, asset, amount))
  }

  class Store {
    var accounts: seq<Account>
    var entries: seq<JournalEntry>
    var subsidiaryEntries: seq<SubsidiaryEntry>
    var cashBookEntries: seq<CashBookEntry>
    var stockTransactions: seq<StockTransaction>
    var inventoryItems: seq<InventoryItem>
    /** The source of fresh ids and random draws, and how many have been used. */
    const ids: Fresh
    var drawn: nat

    function State(): Snapshot
      reads this
    {
      Snapshot(accounts, entries, subsidiaryEntries, cashBookEntries, stockTransactions, inventoryItems)
    }

    /** Every journal entry in the store passed the `addEntry` check. */
    ghost predicate Valid()
      reads this
    {
      forall e :: e in entries ==> Balanced(e.lines)
    }

    /** A fresh store: the default chart of accounts and nothing else. */
    constructor (ids: Fresh)
      ensures Valid()
      ensures State() == Snapshot(DefaultAccounts(), [], [], [], [], [])
      ensures this.ids == ids && drawn == 0
    {
      accounts := DefaultAccounts();
      entries := [];
      subsidiaryEntries := [];
      cashBookEntries := [];
      stockTransactions := [];
      inventoryItems := [];
      this.ids := ids;
      drawn := 0;
    }

    /** One call of `uuidv4()`. */
    method NewId() returns (id: string)
      modifies this
      ensures id == ids.uuid(old(drawn)) && drawn == old(drawn) + 1
      ensures State() == old(State())
    {
      id := ids.uuid(drawn);
      drawn := drawn + 1;
    }

    /** Fresh ids for a list of lines. */
    method StampLines(lines: seq<JournalLine>) returns (r: seq<JournalLine>)
      modifies this
      ensures r == Stamp(lines, ids.uuid, old(drawn)) && drawn == old(drawn) + |lines|
      ensures State() == old(State())
    {
      r := Stamp(lines, ids.uuid, drawn);
      drawn := drawn + |lines|;
    }

    /**
     * `addEntry`: refuse an entry whose debits and credits differ by more
     * than the tolerance; otherwise put it first, with a generated
     * transaction id if it has none.
     */
    method AddEntry(e: JournalEntry) returns (ok: bool)
      modifies this
      ensures ok <==> Balanced(e.lines)
      ensures ok ==> State() == old(State()).(entries := [WithTransactionId(e, TransactionId(ids.uuid(old(drawn))))] + old(entries))
      ensures !ok ==> State() == old(State())
      ensures drawn == old(drawn) + (if ok && NeedsTransactionId(e) then 1 else 0)
      ensures old(Valid()) ==> Valid()
    {
      var totalDr := DebitTotal(e.lines);
      var totalCr := CreditTotal(e.lines);
      if Abs(totalDr - totalCr) > Tolerance {
        return false;
      }
      var stamped := e;
      if NeedsTransactionId(e) {
        var u := NewId();
        stamped := WithTransactionId(e, TransactionId(u));
      }
      entries := [stamped] + entries;
      ok := true;
    }

    /** `createAccount`: append a new account with a fresh id and a random code. */
    method CreateAccount(name: string, kind: AccountType, cls: Classification, cat: Option<Category>) returns (a: Account)
      modifies this
      ensures a == NewAccount(ids.uuid(old(drawn)), name, kind, cls, cat, ids.draw(old(drawn)))
      ensures State() == old(State()).(accounts := old(accounts) + [a])
      ensures drawn == old(drawn) + 1
    {
      a := NewAccount(ids.uuid(drawn), name, kind, cls, cat, ids.draw(drawn));
      accounts := accounts + [a];
      drawn := drawn + 1;
    }

    /** `found || createAccount(...)`: the account a lookup found, or a new one. */
    method ResolveOr(found: Option<Account>, name: string, kind: AccountType, cls: Classification, cat: Option<Category>)
      returns (a: Account)
      modifies this
      ensures found.Some? ==> a == found.value && State() == old(State()) && drawn == old(drawn)
      ensures found.None? ==> a == NewAccount(ids.uuid(old(drawn)), name, kind, cls, cat, ids.draw(old(drawn)))
      ensures found.None? ==> State() == old(State()).(accounts := old(accounts) + [a]) && drawn == old(drawn) + 1
    {
      if found.Some? {
        a := found.value;
      } else {
        a := CreateAccount(name, kind, cls, cat);
      }
    }

    /**
     * `getAccountByName(name) || createAccount(...)`: an account of the
     * snapshot with that name, or a new one appended to the store.
     */
    method ResolveByName(snapshot: seq<Account>, name: string, kind: AccountType, cls: Classification, cat: Option<Category>)
      returns (a: Account)
      modifies this
      ensures ResolvedByName(snapshot, name, kind, cls, cat, a)
      ensures FindByName(snapshot, name).Some? ==> State() == old(State()) && drawn == old(drawn)
      ensures FindByName(snapshot, name).None? ==>
        a == NewAccount(ids.uuid(old(drawn)), name, kind, cls, cat, ids.draw(old(drawn))) &&
        State() == old(State()).(accounts := old(accounts) + [a]) && drawn == old(drawn) + 1
      ensures old(accounts) <= accounts
      ensures State().(accounts := old(accounts)) == old(State())
    {
      a := ResolveOr(FindByName(snapshot, name), name, kind, cls, cat);
    }

    /** `accounts.find(a => a.name === name) || createAccount(...)`: the exact-name variant. */
    method ResolveExact(snapshot: seq<Account>, name: string, kind: AccountType, cls: Classification, cat: Option<Category>)
      returns (a: Account)
      modifies this
      ensures ResolvedExact(snapshot, name, kind, cls, cat, a)
      ensures FindNamed(snapshot, name).Some? ==> State() == old(State()) && drawn == old(drawn)
      ensures FindNamed(snapshot, name).None? ==>
        a == NewAccount(ids.uuid(old(drawn)), name, kind, cls, cat, ids.draw(old(drawn))) &&
        State() == old(State()).(accounts := old(accounts) + [a]) && drawn == old(drawn) + 1
      ensures old(accounts) <= accounts
      ensures State().(accounts := old(accounts)) == old(State())
    {
      a := ResolveOr(FindNamed(snapshot, name), name, kind, cls, cat);
    }

    /** `updateAccount`. */
    method UpdateAccount(id: string, p: AccountPatch)
      modifies this
      ensures State() == old(State()).(accounts := UpdateAccounts(old(accounts), id, p))
      ensures drawn == old(drawn)
    {
      accounts := UpdateAccounts(accounts, id, p);
    }

    /** `deleteAccount`: journal lines that refer to the account are kept. */
    method DeleteAccount(id: string)
      modifies this
      ensures State() == old(State()).(accounts := RemoveAccount(old(accounts), id))
      ensures drawn == old(drawn)
    {
      accounts := RemoveAccount(accounts, id);
    }

    /** `addSubsidiaryEntry`: record a document without posting it. */
    method AddSubsidiaryEntry(doc: SubsidiaryEntry)
      modifies this
      ensures State() == old(State()).(subsidiaryEntries := old(subsidiaryEntries) + [doc])
      ensures drawn == old(drawn)
    {
      subsidiaryEntries := subsidiaryEntries + [doc];
    }

    /** `generateDocumentId`. */
    method GenerateDocumentId(book: BookType) returns (id: string)
      modifies this
      ensures id == DocumentId(book, ids.uuid(old(drawn))) && drawn == old(drawn) + 1
      ensures State() == old(State())
    {
      var u := NewId();
      id := DocumentId(book, u);
    }

    /** `softReset`: clear every store except the accounts and the inventory items. */
    method SoftReset()
      modifies this
      ensures State() == Snapshot(old(accounts), [], [], [], [], old(inventoryItems))
      ensures Valid() && drawn == old(drawn)
    {
      entries := [];
      subsidiaryEntries := [];
      cashBookEntries := [];
      stockTransactions := [];
    }

    /**
     * `hardReset`: back to the default chart of accounts with every other
     * store empty, the state of a fresh store.
     */
    method HardReset()
      modifies this
      ensures State() == Snapshot(DefaultAccounts(), [], [], [], [], [])
      ensures Valid() && drawn == old(drawn)
    {
      accounts := DefaultAccounts();
      entries := [];
      subsidiaryEntries := [];
      cashBookEntries := [];
      stockTransactions := [];
      inventoryItems := [];
    }

    /** Give the lines fresh ids and offer them to `addEntry` as a new entry. */
    method PostLines(date: int, narration: string, lines: seq<JournalLine>, isDepreciation: bool) returns (ok: bool)
      modifies this
      ensures ok <==> Balanced(lines)
      ensures ok ==> |entries| == |old(entries)| + 1 && entries[1..] == old(entries)
      ensures ok ==> entries[0].date == date && entries[0].narration == narration && entries[0].isDepreciationEntry == isDepreciation
      ensures ok ==> Restamped(entries[0].lines, lines)
      ensures !ok ==> entries == old(entries)
      ensures State().(entries := old(entries)) == old(State())
      ensures old(Valid()) ==> Valid()
    {
      ghost var k0 := drawn;
      var stamped := StampLines(lines);
      StampKeepsTotals(lines, ids.uuid, k0, "");
      var id := NewId();
      ok := AddEntry(JournalEntry(id, None, date, narration, stamped, isDepreciation));
    }

    /** Resolve the account a subsidiary book posts its discount to, when there is one. */
    method ResolveDiscount(snapshot: seq<Account>, book: BookType, cd: real) returns (disc: Option<Account>)
      modifies this
      ensures cd > 0.0 && (book == Purchase || book == Sales) <==> disc.Some?
      ensures disc.Some? && book == Purchase ==>
        ResolvedByName(snapshot, "Discount Received A/c", Revenue, IndirectRevenue, Some(Indirect), disc.value)
      ensures disc.Some? && book == Sales ==>
        ResolvedByName(snapshot, "Discount Allowed A/c", Expense, IndirectExpense, Some(Indirect), disc.value)
      ensures State().(accounts := old(accounts)) == old(State())
      ensures old(accounts) <= accounts
    {
      disc := None;
      if cd > 0.0 && book == Purchase {
        var a := ResolveByName(snapshot, "Discount Received A/c", Revenue, IndirectRevenue, Some(Indirect));
        disc := Some(a);
      } else if cd > 0.0 && book == Sales {
        var a := ResolveByName(snapshot, "Discount Allowed A/c", Expense, IndirectExpense, Some(Indirect));
        disc := Some(a);
      }
    }

    /**
     * The accounts `postSubsidiaryEntry` posts to: the party (a debtor in
     * the sales books, a creditor otherwise), the book's main account and,
     * for a purchase or a sale with a cash discount, the discount account;
     * each found by name in `snapshot` or created.
     */
    method ResolveDocumentAccounts(snapshot: seq<Account>, doc: SubsidiaryEntry)
      returns (party: Account, main: Account, disc: Option<Account>)
      modifies this
      ensures DocumentAccounts(snapshot, doc, party, main, disc)
      ensures old(accounts) <= accounts
      ensures State().(accounts := old(accounts)) == old(State())
    {
      var book := doc.bookType;
      party := ResolveByName(snapshot, doc.partyName, PartyType(book), PartyClassification(book), None);
      main := ResolveByName(snapshot, MainAccountName(book), MainAccountType(book), MainClassification(book), Some(Direct));
      disc := ResolveDiscount(snapshot, book, doc.cashDiscountAmount);
    }

    /**
     * The journal half of `postSubsidiaryEntry`: resolve the accounts,
     * build the lines and offer them to `addEntry`.
     */
    method PostDocumentLines(doc: SubsidiaryEntry) returns (ok: bool, party: Account, main: Account, disc: Option<Account>)
      modifies this
      ensures DocumentAccounts(old(accounts), doc, party, main, disc)
      ensures ok <==> Abs(DocumentImbalance(doc)) <= Tolerance
      ensures ok <==> |entries| == |old(entries)| + 1
      ensures !ok ==> entries == old(entries)
      ensures ok ==> entries[1..] == old(entries) && entries[0].date == doc.date && !entries[0].isDepreciationEntry
      ensures ok ==> entries[0].narration == DocumentNarration(doc.bookType)
      ensures ok ==> Restamped(entries[0].lines, DocumentLines(doc, party, main, disc))
      ensures old(accounts) <= accounts
      ensures State().(accounts := old(accounts), entries := old(entries)) == old(State())
      ensures old(Valid()) ==> Valid()
    {
      party, main, disc := ResolveDocumentAccounts(accounts, doc);
      var lines := DocumentLines(doc, party, main, disc);
      DocumentLinesBalance(old(accounts), doc, party, main, disc);
      ok := PostLines(doc.date, DocumentNarration(doc.bookType), lines, false);
    }

    /**
     * One invoice line of `postSubsidiaryEntry`: find its good in `items`
     * (or create it when the description is not blank) and build its
     * stock movement; a purchase also records the line's rate as the
     * good's last purchase rate.
     */
    method StockLine(doc: SubsidiaryEntry, line: InvoiceItem, txns: seq<StockTransaction>, items: seq<InventoryItem>)
      returns (move: Option<StockTransaction>)
      modifies this
      ensures var eff := LineStep(doc, line, txns, items, old(inventoryItems), ids.uuid, old(drawn));
        move == eff.move && inventoryItems == eff.items && drawn == old(drawn) + eff.used
      ensures LineFacts(move, inventoryItems, doc, line, txns, items, old(inventoryItems))
      ensures State().(inventoryItems := old(inventoryItems)) == old(State())
    {
      LineStepEffect(doc, line, txns, items, inventoryItems, ids.uuid, drawn);
      var book := doc.bookType;
      var inv := FindItem(items, line.description);
      if inv.None? && Trim(line.description) != "" {
        var id := NewId();
        var item := NewItem(id, book, line);
        inventoryItems := inventoryItems + [item];
        inv := Some(item);
      }
      move := None;
      if inv.Some? {
        var cost := 0.0;
        if CostedAtFifo(book) {
          cost := CalculateFifoCost(txns, items, inv.value.id, line.quantity);
        }
        var id := NewId();
        move := Some(StockMove(id, book, doc.date, inv.value, line, cost, doc.invoiceNumber));
        if book == Purchase {
          inventoryItems := UpdateItemRate(inventoryItems, inv.value.id, line.rate);
        }
      }
    }

    /**
     * The stock half of `postSubsidiaryEntry`: every line whose good is
     * known, or has a name to create it by, becomes one stock movement.
     * Lookups and FIFO costs use `items` and `txns`, the stores as they
     * stood before the document.
     */
    method RecordStockMoves(doc: SubsidiaryEntry, txns: seq<StockTransaction>, items: seq<InventoryItem>)
      returns (moves: seq<StockTransaction>)
      modifies this
      ensures Stocked(doc, txns, items, doc.items, old(inventoryItems), moves, inventoryItems)
      ensures State().(inventoryItems := old(inventoryItems)) == old(State())
    {
      moves := [];
      var i := 0;
      while i < |doc.items|
        invariant 0 <= i <= |doc.items|
        invariant Stocked(doc, txns, items, doc.items[..i], old(inventoryItems), moves, inventoryItems)
        invariant State().(inventoryItems := old(inventoryItems)) == old(State())
      {
        ghost var before := inventoryItems;
        var m := StockLine(doc, doc.items[i], txns, items);
        StockedSnoc(doc, txns, items, doc.items[..i], doc.items[i], old(inventoryItems), moves, before, m, inventoryItems);
        assert doc.items[..i + 1] == doc.items[..i] + [doc.items[i]];
        if m.Some? {
          moves := moves + [m.value];
        }
        i := i + 1;
      }
      assert doc.items[..i] == doc.items;
    }

    /**
     * The stock half of `postSubsidiaryEntry`: record the document's
     * movements and append them to the stock ledger.
     */
    method PostDocumentStock(doc: SubsidiaryEntry)
      modifies this
      ensures |stockTransactions| >= |old(stockTransactions)|
      ensures stockTransactions[..|old(stockTransactions)|] == old(stockTransactions)
      ensures Stocked(doc, old(stockTransactions), old(inventoryItems), doc.items, old(inventoryItems),
                      stockTransactions[|old(stockTransactions)|..], inventoryItems)
      ensures State().(stockTransactions := old(stockTransactions), inventoryItems := old(inventoryItems)) == old(State())
    {
      var txns, items := stockTransactions, inventoryItems;
      var moves := RecordStockMoves(doc, txns, items);
      if |moves| > 0 {
        stockTransactions := stockTransactions + moves;
      }
      assert stockTransactions[|txns|..] == moves;
    }

    /**
     * `postSubsidiaryEntry`: post the document's journal entry, then append
     * its stock movements whether or not the entry was accepted.
     */
    method PostSubsidiaryEntry(doc: SubsidiaryEntry)
      modifies this
      ensures entries == old(entries) || (|entries| == |old(entries)| + 1 && entries[1..] == old(entries))
      ensures |entries| == |old(entries)| + 1 <==> Abs(DocumentImbalance(doc)) <= Tolerance
      ensures |entries| == |old(entries)| + 1 ==>
        entries[0].date == doc.date && entries[0].narration == DocumentNarration(doc.bookType) &&
        !entries[0].isDepreciationEntry && PostsDocumentLines(old(accounts), doc, entries[0].lines)
      ensures old(accounts) <= accounts
      ensures |stockTransactions| >= |old(stockTransactions)|
      ensures stockTransactions[..|old(stockTransactions)|] == old(stockTransactions)
      ensures Stocked(doc, old(stockTransactions), old(inventoryItems), doc.items, old(inventoryItems),
                      stockTransactions[|old(stockTransactions)|..], inventoryItems)
      ensures subsidiaryEntries == old(subsidiaryEntries) && cashBookEntries == old(cashBookEntries)
      ensures old(Valid()) ==> Valid()
    {
      var ok, party, main, disc := PostDocumentLines(doc);
      PostDocumentStock(doc);
    }

    /**
     * `postDepreciation`: resolve (or create) the depreciation account,
     * then, if the asset exists, post a balanced entry that debits
     * depreciation and credits the asset with the amount.
     */
    method PostDepreciation(accountId: string, amount: real, date: int, narration: string)
      modifies this
      ensures FindById(old(accounts), accountId).None? ==> entries == old(entries)
      ensures FindById(old(accounts), accountId).Some? ==>
        |entries| == |old(entries)| + 1 && entries[1..] == old(entries) && entries[0].isDepreciationEntry &&
        entries[0].date == date && entries[0].narration == narration &&
        PostsDepreciationLines(old(accounts), FindById(old(accounts), accountId).value, amount, entries[0].lines)
      ensures FindByName(old(accounts), "Depreciation A/c").Some? ==> accounts == old(accounts)
      ensures FindByName(old(accounts), "Depreciation A/c").None? ==>
        |accounts| == |old(accounts)| + 1 &&
        ResolvedByName(old(accounts), "Depreciation A/c", Expense, IndirectExpense, Some(Indirect), accounts[|accounts| - 1])
      ensures FindById(old(accounts), accountId).Some? ==>
        |entries[0].lines| == 2 &&
        entries[0].lines[0].side == Debit && entries[0].lines[0].amount == amount &&
        entries[0].lines[0].accountId == (match FindByName(old(accounts), "Depreciation A/c")
                                          case Some(found) => found.id
                                          case None => accounts[|accounts| - 1].id) &&
        entries[0].lines[1].side == Credit && entries[0].lines[1].amount == amount && entries[0].lines[1].accountId == accountId
      ensures old(accounts) <= accounts
      ensures State().(accounts := old(accounts), entries := old(entries)) == old(State())
      ensures old(Valid()) ==> Valid()
    {
      var snapshot := accounts;
      var dep := ResolveByName(snapshot, "Depreciation A/c", Expense, IndirectExpense, Some(Indirect));
      var asset := FindById(snapshot, accountId);
      if asset.Some? {
        var ok := PostLines(date, narration, DepreciationLines(dep, asset.value, amount), true);
        DepreciationPosted(dep, asset.value, amount, entries[0].lines);
      }
    }

    /**
     * The accounts `addCashBookEntry` resolves: cash and bank by exact
     * name; capital for an opening balance; for an ordinary entry the
     * counter account (found by name, or created as revenue for a receipt
     * and expense for a payment) and, with a discount, the discount
     * account. What the snapshot lacks is created.
     */
    method ResolveCashBookAccounts(snapshot: seq<Account>, e: CashBookEntry)
      returns (cash: Account, bank: Account, cap: Option<Account>, other: Option<Account>, disc: Option<Account>)
      modifies this
      ensures CashBookAccounts(snapshot, e, cash, bank, cap, other, disc)
      ensures old(accounts) <= accounts
      ensures State().(accounts := old(accounts)) == old(State())
    {
      cash := ResolveExact(snapshot, "Cash A/c", Asset, CurrentAsset, None);
      bank := ResolveExact(snapshot, "Bank A/c", Asset, CurrentAsset, None);
      cap, other, disc := ResolveCounterAccounts(snapshot, e);
    }

    /** The accounts of `addCashBookEntry` besides cash and bank. */
    method ResolveCounterAccounts(snapshot: seq<Account>, e: CashBookEntry)
      returns (cap: Option<Account>, other: Option<Account>, disc: Option<Account>)
      modifies this
      ensures e.isOpeningBalance <==> cap.Some?
      ensures cap.Some? ==> ResolvedByName(snapshot, "Capital A/c", Equity, OwnerCapital, None, cap.value)
      ensures !e.isOpeningBalance && !e.isContra <==> other.Some?
      ensures other.Some? ==> ResolvedByName(snapshot, e.accountName, CounterType(e.kind), CurrentAsset, None, other.value)
      ensures !e.isOpeningBalance && !e.isContra && e.discountAmount > 0.0 <==> disc.Some?
      ensures disc.Some? && e.kind == Receipt ==>
        ResolvedByName(snapshot, "Discount Allowed A/c", Expense, IndirectExpense, Some(Indirect), disc.value)
      ensures disc.Some? && e.kind == Payment ==>
        ResolvedByName(snapshot, "Discount Received A/c", Revenue, IndirectRevenue, Some(Indirect), disc.value)
      ensures old(accounts) <= accounts
      ensures State().(accounts := old(accounts)) == old(State())
    {
      cap, other, disc := None, None, None;
      if e.isOpeningBalance {
        var a := ResolveByName(snapshot, "Capital A/c", Equity, OwnerCapital, None);
        cap := Some(a);
      } else if !e.isContra {
        var a := ResolveByName(snapshot, e.accountName, CounterType(e.kind), CurrentAsset, None);
        other := Some(a);
        if e.discountAmount > 0.0 {
          disc := ResolveCashDiscount(snapshot, e.kind);
        }
      }
    }

    /** The discount account of a cash-book entry: allowed on receipts, received on payments. */
    method ResolveCashDiscount(snapshot: seq<Account>, kind: CashType) returns (disc: Option<Account>)
      modifies this
      ensures disc.Some?
      ensures kind == Receipt ==>
        ResolvedByName(snapshot, "Discount Allowed A/c", Expense, IndirectExpense, Some(Indirect), disc.value)
      ensures kind == Payment ==>
        ResolvedByName(snapshot, "Discount Received A/c", Revenue, IndirectRevenue, Some(Indirect), disc.value)
      ensures old(accounts) <= accounts
      ensures State().(accounts := old(accounts)) == old(State())
    {
      var d;
      if kind == Receipt {
        d := ResolveByName(snapshot, "Discount Allowed A/c", Expense, IndirectExpense, Some(Indirect));
      } else {
        d := ResolveByName(snapshot, "Discount Received A/c", Revenue, IndirectRevenue, Some(Indirect));
      }
      disc := Some(d);
    }

    /**
     * `addCashBookEntry`: record the entry, resolve the accounts, and post
     * the lines it translates to when there are any.
     */
    method AddCashBookEntry(e: CashBookEntry)
      modifies this
      ensures cashBookEntries == old(cashBookEntries) + [e]
      ensures entries == old(entries) || (|entries| == |old(entries)| + 1 && entries[1..] == old(entries))
      ensures !e.isContra && !e.isOpeningBalance && e.cashAmount >= 0.0 && e.bankAmount >= 0.0 && e.discountAmount >= 0.0 ==>
        |entries| == |old(entries)| + 1
      ensures e.isOpeningBalance ==> (|entries| == |old(entries)| + 1 <==> e.cashAmount > 0.0 || e.bankAmount > 0.0)
      ensures |entries| == |old(entries)| + 1 ==>
        entries[0].date == e.date && entries[0].narration == e.particulars && !entries[0].isDepreciationEntry &&
        PostsCashBookLines(old(accounts), e, entries[0].lines)
      ensures !e.isOpeningBalance && e.isContra && e.accountName == ContraName(e.kind) ==>
        |entries| == |old(entries)| + 1 && |entries[0].lines| == 2 &&
        entries[0].lines[0].side == Debit && entries[0].lines[0].amount == e.bankAmount &&
        entries[0].lines[0].accountName == "Bank A/c" &&
        entries[0].lines[1].side == Credit && entries[0].lines[1].amount == e.bankAmount &&
        entries[0].lines[1].accountName == "Cash A/c"
      ensures old(accounts) <= accounts
      ensures stockTransactions == old(stockTransactions) && inventoryItems == old(inventoryItems)
      ensures subsidiaryEntries == old(subsidiaryEntries)
      ensures old(Valid()) ==> Valid()
    {
      cashBookEntries := cashBookEntries + [e];
      var cash, bank, cap, other, disc := ResolveCashBookAccounts(accounts, e);
      PostCashBookLines(old(accounts), e, cash, bank, cap, other, disc);
    }

    /** The posting half of `addCashBookEntry`, once the accounts are resolved against `snapshot`. */
    method PostCashBookLines(ghost snapshot: seq<Account>, e: CashBookEntry, cash: Account, bank: Account,
                             cap: Option<Account>, other: Option<Account>, disc: Option<Account>)
      requires CashBookAccounts(snapshot, e, cash, bank, cap, other, disc)
      modifies this
      ensures entries == old(entries) || (|entries| == |old(entries)| + 1 && entries[1..] == old(entries))
      ensures !e.isContra && !e.isOpeningBalance && e.cashAmount >= 0.0 && e.bankAmount >= 0.0 && e.discountAmount >= 0.0 ==>
        |entries| == |old(entries)| + 1
      ensures e.isOpeningBalance ==> (|entries| == |old(entries)| + 1 <==> e.cashAmount > 0.0 || e.bankAmount > 0.0)
      ensures |entries| == |old(entries)| + 1 ==>
        entries[0].date == e.date && entries[0].narration == e.particulars && !entries[0].isDepreciationEntry &&
        PostsCashBookLines(snapshot, e, entries[0].lines)
      ensures !e.isOpeningBalance && e.isContra && e.accountName == ContraName(e.kind) ==>
        |entries| == |old(entries)| + 1 && |entries[0].lines| == 2 &&
        entries[0].lines[0].side == Debit && entries[0].lines[0].amount == e.bankAmount &&
        entries[0].lines[0].accountName == "Bank A/c" &&
        entries[0].lines[1].side == Credit && entries[0].lines[1].amount == e.bankAmount &&
        entries[0].lines[1].accountName == "Cash A/c"
      ensures State().(entries := old(entries)) == old(State())
      ensures old(Valid()) ==> Valid()
    {
      var lines := CashBookLines(e, cash, bank, cap, other, disc);
      CashBookOutcome(e, cash, bank, cap, other, disc);
      PostCashBookEntry(snapshot, e, cash, bank, cap, other, disc, lines);
    }

    /** Post the nonempty lines of a cash-book entry as one journal entry, when they balance. */
    method PostCashBookEntry(ghost snapshot: seq<Account>, e: CashBookEntry, cash: Account, bank: Account,
                             cap: Option<Account>, other: Option<Account>, disc: Option<Account>, lines: seq<JournalLine>)
      requires CashBookAccounts(snapshot, e, cash, bank, cap, other, disc)
      requires lines == CashBookLines(e, cash, bank, cap, other, disc)
      modifies this
      ensures |lines| > 0 && Balanced(lines) <==> |entries| == |old(entries)| + 1
      ensures entries == old(entries) || (|entries| == |old(entries)| + 1 && entries[1..] == old(entries))
      ensures |entries| == |old(entries)| + 1 ==>
        entries[0].date == e.date && entries[0].narration == e.particulars && !entries[0].isDepreciationEntry &&
        PostsCashBookLines(snapshot, e, entries[0].lines)
      ensures !e.isOpeningBalance && e.isContra && e.accountName == ContraName(e.kind) && |entries| == |old(entries)| + 1 ==>
        |entries[0].lines| == 2 &&
        entries[0].lines[0].side == Debit && entries[0].lines[0].amount == e.bankAmount &&
        entries[0].lines[0].accountName == "Bank A/c" &&
        entries[0].lines[1].side == Credit && entries[0].lines[1].amount == e.bankAmount &&
        entries[0].lines[1].accountName == "Cash A/c"
      ensures State().(entries := old(entries)) == old(State())
      ensures old(Valid()) ==> Valid()
    {
      if |lines| > 0 {
        var ok := PostLines(e.date, e.particulars, lines, false);
        if ok {
          CashBookPosted(snapshot, e, cash, bank, cap, other, disc, entries[0].lines);
          if !e.isOpeningBalance && e.isContra && e.accountName == ContraName(e.kind) {
            ContraAlwaysDebitsBank(e, cash, bank, cap, other, disc);
            ContraPosted(snapshot, e, cash, bank, entries[0].lines);
          }
        }
      }
    }
  }

  /** Lines posted for a cash-book entry under fresh ids are the lines it translates to. */
  lemma CashBookPosted(snapshot: seq<Account>, e: CashBookEntry, cash: Account, bank: Account,
                       cap: Option<Account>, other: Option<Account>, disc: Option<Account>, posted: seq<JournalLine>)
    requires CashBookAccounts(snapshot, e, cash, bank, cap, other, disc)
    requires Restamped(posted, CashBookLines(e, cash, bank, cap, other, disc))
    ensures PostsCashBookLines(snapshot, e, posted)
  {
  }

  /**
   * A contra entry of the direction the form offers posts two lines: a
   * debit on the bank account and a credit on the cash account, both of
   * the bank amount.
   */
  lemma ContraPosted(snapshot: seq<Account>, e: CashBookEntry, cash: Account, bank: Account, posted: seq<JournalLine>)
    requires ResolvedExact(snapshot, "Cash A/c", Asset, CurrentAsset, None, cash)
    requires ResolvedExact(snapshot, "Bank A/c", Asset, CurrentAsset, None, bank)
    requires Restamped(posted, [Line(Debit, bank, e.bankAmount), Line(Credit, cash, e.bankAmount)])
    ensures |posted| == 2
    ensures posted[0].side == Debit && posted[0].amount == e.bankAmount && posted[0].accountName == "Bank A/c"
    ensures posted[1].side == Credit && posted[1].amount == e.bankAmount && posted[1].accountName == "Cash A/c"
  {
    ResolvedExactName(snapshot, "Cash A/c", Asset, CurrentAsset, None, cash);
    ResolvedExactName(snapshot, "Bank A/c", Asset, CurrentAsset, None, bank);
    RestampedPair(posted, Line(Debit, bank, e.bankAmount), Line(Credit, cash, e.bankAmount));
  }

  /** The two lines of a depreciation charge, under fresh ids: a debit on `dep` and a credit on the asset, both of `amount`. */
  lemma DepreciationPosted(dep: Account, asset: Account, amount: real, posted: seq<JournalLine>)
    requires Restamped(posted, DepreciationLines(dep, asset, amount))
    ensures |posted| == 2
    ensures posted[0].side == Debit && posted[0].accountId == dep.id && posted[0].amount == amount
    ensures posted[1].side == Credit && posted[1].accountId == asset.id && posted[1].amount == amount
  {
    var lines := DepreciationLines(dep, asset, amount);
    assert posted[0] == lines[0].(id := posted[0].id);
    assert posted[1] == lines[1].(id := posted[1].id);
  }

  /** What `addCashBookEntry` posts, case by case, as the store method relies on it. */
  lemma CashBookOutcome(e: CashBookEntry, cash: Account, bank: Account,
                        cap: Option<Account>, other: Option<Account>, disc: Option<Account>)
    requires e.isOpeningBalance <==> cap.Some?
    requires !e.isOpeningBalance && !e.isContra <==> other.Some?
    requires !e.isOpeningBalance && !e.isContra && e.discountAmount > 0.0 <==> disc.Some?
    ensures var lines := CashBookLines(e, cash, bank, cap, other, disc);
      (!e.isContra && !e.isOpeningBalance && e.cashAmount >= 0.0 && e.bankAmount >= 0.0 && e.discountAmount >= 0.0 ==>
        |lines| > 0 && Balanced(lines)) &&
      (e.isOpeningBalance ==> Balanced(lines) && (|lines| > 0 <==> e.cashAmount > 0.0 || e.bankAmount > 0.0)) &&
      (!e.isOpeningBalance && e.isContra && e.accountName == ContraName(e.kind) ==>
        lines == [Line(Debit, bank, e.bankAmount), Line(Credit, cash, e.bankAmount)] && Balanced(lines))
  {
    var c, b, d := e.cashAmount, e.bankAmount, e.discountAmount;
    var lines := CashBookLines(e, cash, bank, cap, other, disc);
    if e.isOpeningBalance {
      OpeningLinesBalance(c, b, cash, bank, cap.value);
    } else if e.isContra {
      if e.accountName == ContraName(e.kind) {
        ContraAlwaysDebitsBank(e, cash, bank, cap, other, disc);
        TotalsTwo(Line(Debit, bank, b), Line(Credit, cash, b));
      }
    } else if e.kind == Receipt {
      ReceiptLinesBalance(c, b, d, cash, bank, other.value, disc);
    } else {
      PaymentLinesBalance(c, b, d, cash, bank, other.value, disc);
    }
  }
}
