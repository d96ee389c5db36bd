/**
 * The records of the bookkeeping system: accounts, journal entries and
 * their lines, subsidiary-book documents, cash-book entries, inventory
 * items and stock transactions. Amounts are `real`, dates are integers
 * ordered as the calendar is, ids and names are strings.
 */
module Model {

  datatype Option<T> = None | Some(value: T)

  datatype AccountType = Asset | Liability | Equity | Revenue | Expense

  datatype Classification =
    | TangibleAsset | IntangibleAsset | CurrentAsset | SundryDebtor | Investment | Advances
    | Loans | SundryCreditor | OutstandingExp | SundryLiability
    | OwnerCapital | OwnerDrawings
    | DirectRevenue | IndirectRevenue
    | DirectExpense | IndirectExpense

  /** The enumeration literal the source uses for each classification. */
  function ClassificationName(c: Classification): string {
    match c
    case TangibleAsset => "TANGIBLE_ASSET"
    case IntangibleAsset => "INTANGIBLE_ASSET"
    case CurrentAsset => "CURRENT_ASSET"
    case SundryDebtor => "SUNDRY_DEBTOR"
    case Investment => "INVESTMENT"
    case Advances => "ADVANCES"
    case Loans => "LOANS"
    case SundryCreditor => "SUNDRY_CREDITOR"
    case OutstandingExp => "OUTSTANDING_EXP"
    case SundryLiability => "SUNDRY_LIABILITY"
    case OwnerCapital => "OWNER_CAPITAL"
    case OwnerDrawings => "OWNER_DRAWINGS"
    case DirectRevenue => "DIRECT_REVENUE"
    case IndirectRevenue => "INDIRECT_REVENUE"
    case DirectExpense => "DIRECT_EXPENSE"
    case IndirectExpense => "INDIRECT_EXPENSE"
  }

  /** Routes a revenue or expense account to the Trading or the P&L account. */
  datatype Category = Direct | Indirect

  datatype Account = Account(
    id: string,
    code: string,
    name: string,
    kind: AccountType,
    classification: Classification,
    category: Option<Category>)

  datatype Side = Debit | Credit

  datatype JournalLine = JournalLine(
    id: string,
    side: Side,
    accountId: string,
    accountName: string,
    amount: real)

  datatype JournalEntry = JournalEntry(
    id: string,
    transactionId: Option<string>,
    date: int,
    narration: string,
    lines: seq<JournalLine>,
    isDepreciationEntry: bool)

  datatype BookType = Sales | Purchase | SalesReturn | PurchaseReturn | Cash

  /** The enumeration literal the source uses for each book. */
  function BookName(b: BookType): string {
    match b
    case Sales => "SALES"
    case Purchase => "PURCHASE"
    case SalesReturn => "SALES_RETURN"
    case PurchaseReturn => "PURCHASE_RETURN"
    case Cash => "CASH"
  }

  datatype InvoiceItem = InvoiceItem(
    id: string,
    description: string,
    quantity: real,
    unit: string,
    rate: real,
    amount: real)

  datatype CashType = Receipt | Payment

  datatype CashBookEntry = CashBookEntry(
    id: string,
    date: int,
    kind: CashType,
    accountId: string,
    accountName: string,
    particulars: string,
    cashAmount: real,
    bankAmount: real,
    discountAmount: real,
    isContra: bool,
    isOpeningBalance: bool,
    posted: bool)

  datatype SubsidiaryEntry = SubsidiaryEntry(
    id: string,
    invoiceNumber: Option<string>,
    referenceId: Option<string>,
    date: int,
    bookType: BookType,
    partyName: string,
    items: seq<InvoiceItem>,
    tradeDiscountPercent: real,
    cashDiscountAmount: real,
    subTotal: real,
    discountAmount: real,
    totalAmount: real,
    posted: bool)

  datatype InventoryItem = InventoryItem(
    id: string,
    name: string,
    unit: string,
    lastPurchaseRate: real)

  datatype StockType = StockReceipt | StockIssue

  datatype StockTransaction = StockTransaction(
    id: string,
    date: int,
    kind: StockType,
    itemId: string,
    itemName: string,
    quantity: real,
    rate: real,
    amount: real,
    refDocId: Option<string>)

  function TxnDate(t: StockTransaction): int { t.date }

  function Abs(x: real): real { if x < 0.0 then -x else x }
  function Max(x: real, y: real): real { if x >= y then x else y }
  function Min(x: real, y: real): real { if x <= y then x else y }

  /**
   * Stand-in for `uuidv4()` and `Math.random()`: the caller supplies the
   * k-th fresh id and the k-th random draw.
   */
  datatype Fresh = Fresh(uuid: nat -> string, draw: nat -> int)
}
