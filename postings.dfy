/**
 * The posting translators of the engine: the journal lines that a
 * subsidiary-book document, a cash-book entry and a depreciation charge
 * turn into, once the accounts involved have been resolved, and the
 * stock movement each invoice line becomes.
 */
module Postings {
  import opened Model
  import opened Journal
  import opened JsText

  /** A journal line on `a` before it receives its fresh id. */
  function Line(side: Side, a: Account, amount: real): JournalLine {
    JournalLine("", side, a.id, a.name, amount)
  }

  /** A line on an account that was resolved only when it is needed. */
  function LineIf(side: Side, a: Option<Account>, amount: real): seq<JournalLine> {
    if a.Some? then [Line(side, a.value, amount)] else []
  }

  /** Gives line `i` the fresh id `uuid(k + i)`. */
  function Stamp(lines: seq<JournalLine>, uuid: nat -> string, k: nat): (r: seq<JournalLine>)
    ensures |r| == |lines|
    ensures forall i :: 0 <= i < |r| ==> r[i] == lines[i].(id := uuid(k + i))
  {
    seq(|lines|, i requires 0 <= i < |lines| => lines[i].(id := uuid(k + i)))
  }

  /** Side totals of a concatenation add up. */
  lemma {:induction false} TotalsAppend(a: seq<JournalLine>, b: seq<JournalLine>)
    ensures DebitTotal(a + b) == DebitTotal(a) + DebitTotal(b)
    ensures CreditTotal(a + b) == CreditTotal(a) + CreditTotal(b)
    decreases |b|
  {
    if b == [] {
      assert a + b == a;
    } else {
      assert (a + b)[..|a + b| - 1] == a + b[..|b| - 1];
      TotalsAppend(a, b[..|b| - 1]);
    }
  }

  lemma TotalsOne(l: JournalLine)
    ensures DebitTotal([l]) == OnSide(l, Debit) && CreditTotal([l]) == OnSide(l, Credit)
  {
    assert [l][..0] == [];
  }

  lemma TotalsTwo(l: JournalLine, m: JournalLine)
    ensures DebitTotal([l, m]) == OnSide(l, Debit) + OnSide(m, Debit)
    ensures CreditTotal([l, m]) == OnSide(l, Credit) + OnSide(m, Credit)
  {
    assert [l, m] == [l] + [m];
    TotalsAppend([l], [m]);
    TotalsOne(l);
    TotalsOne(m);
  }

  /** Lines that agree pointwise on side and amount have the same totals. */
  lemma {:induction false} SameAmountsSameTotals(a: seq<JournalLine>, b: seq<JournalLine>)
    requires |a| == |b| && forall i :: 0 <= i < |a| ==> a[i].side == b[i].side && a[i].amount == b[i].amount
    ensures DebitTotal(a) == DebitTotal(b) && CreditTotal(a) == CreditTotal(b)
    decreases |a|
  {
    if a != [] {
      SameAmountsSameTotals(a[..|a| - 1], b[..|b| - 1]);
    }
  }

  /** Lines that agree pointwise on side, amount and account give every account the same balance. */
  lemma {:induction false} SameAmountsSameBalance(a: seq<JournalLine>, b: seq<JournalLine>, id: string)
    requires |a| == |b| && forall i :: 0 <= i < |a| ==> a[i].side == b[i].side && a[i].amount == b[i].amount && a[i].accountId == b[i].accountId
    ensures LinesBalance(a, id) == LinesBalance(b, id)
    decreases |a|
  {
    if a != [] {
      SameAmountsSameBalance(a[..|a| - 1], b[..|b| - 1], id);
    }
  }

  /** Stamping ids changes neither the side totals nor any account's balance. */
  lemma StampKeepsTotals(lines: seq<JournalLine>, uuid: nat -> string, k: nat, id: string)
    ensures DebitTotal(Stamp(lines, uuid, k)) == DebitTotal(lines)
    ensures CreditTotal(Stamp(lines, uuid, k)) == CreditTotal(lines)
    ensures LinesBalance(Stamp(lines, uuid, k), id) == LinesBalance(lines, id)
  {
    SameAmountsSameTotals(Stamp(lines, uuid, k), lines);
    SameAmountsSameBalance(Stamp(lines, uuid, k), lines, id);
  }

  /** `posted` are `lines`, one for one, each under an id of its own. */
  predicate Restamped(posted: seq<JournalLine>, lines: seq<JournalLine>) {
    |posted| == |lines| && forall k :: 0 <= k < |lines| ==> posted[k] == lines[k].(id := posted[k].id)
  }

  /** Lines posted under new ids keep the totals and every account's balance of the lines built. */
  lemma RestampedKeepsTotals(posted: seq<JournalLine>, lines: seq<JournalLine>, id: string)
    requires Restamped(posted, lines)
    ensures DebitTotal(posted) == DebitTotal(lines) && CreditTotal(posted) == CreditTotal(lines)
    ensures LinesBalance(posted, id) == LinesBalance(lines, id)
  {
    assert forall k :: 0 <= k < |lines| ==>
      posted[k].side == lines[k].side && posted[k].amount == lines[k].amount && posted[k].accountId == lines[k].accountId;
    SameAmountsSameTotals(posted, lines);
    SameAmountsSameBalance(posted, lines, id);
  }

  /** Two lines posted under new ids keep their sides, amounts and account names. */
  lemma RestampedPair(posted: seq<JournalLine>, l: JournalLine, m: JournalLine)
    requires Restamped(posted, [l, m])
    ensures |posted| == 2
    ensures posted[0].side == l.side && posted[0].amount == l.amount && posted[0].accountName == l.accountName
    ensures posted[1].side == m.side && posted[1].amount == m.amount && posted[1].accountName == m.accountName
  {
    assert posted[0] == l.(id := posted[0].id);
    assert posted[1] == m.(id := posted[1].id);
  }

  // ---------------------------------------------------------------------
  // Subsidiary books

  /** The ledger account a book posts its goods to. */
  function MainAccountName(book: BookType): string {
    match book
    case Purchase => "Purchase A/c"
    case Sales => "Sales A/c"
    case PurchaseReturn => "Purchase Return A/c"
    case SalesReturn => "Sales Return A/c"
    case Cash => ""
  }

  /** The classification a missing main account is created with. */
  function MainClassification(book: BookType): Classification {
    match book
    case Purchase => DirectExpense
    case SalesReturn => DirectExpense
    case _ => DirectRevenue
  }

  /**
   * The type a missing main account is created with, decided in the source
   * by whether the book's name mentions PURCHASE and RETURN.
   */
  function MainAccountType(book: BookType): AccountType {
    match book
    case Purchase => Expense
    case PurchaseReturn => Revenue
    case SalesReturn => Expense
    case _ => Revenue
  }

  /** A party in the sales books is a debtor, in every other book a creditor. */
  function PartyType(book: BookType): AccountType {
    if book == Sales || book == SalesReturn then Asset else Liability
  }

  function PartyClassification(book: BookType): Classification {
    if book == Sales || book == SalesReturn then SundryDebtor else SundryCreditor
  }

  /** The cash discount of a document, counted only when positive. */
  function CashDiscountPosted(cd: real): real {
    if cd > 0.0 then cd else 0.0
  }

  /**
   * The lines `postSubsidiaryEntry` builds for a document: `party` and
   * `main` resolved, `disc` the discount account resolved when the cash
   * discount is positive (received on purchases, allowed on sales).
   */
  function SubsidiaryLines(book: BookType, party: Account, main: Account, disc: Option<Account>,
                           subTotal: real, discountAmount: real, totalAmount: real, cd: real): seq<JournalLine>
  {
    var gross := subTotal - discountAmount;
    match book
    case Purchase =>
      [Line(Debit, main, gross), Line(Credit, party, totalAmount)]
        + (if cd > 0.0 then LineIf(Credit, disc, cd) else [])
    case Sales =>
      [Line(Debit, party, totalAmount)]
        + (if cd > 0.0 then LineIf(Debit, disc, cd) else [])
        + [Line(Credit, main, gross)]
    case SalesReturn => [Line(Debit, main, totalAmount), Line(Credit, party, totalAmount)]
    case PurchaseReturn => [Line(Debit, party, totalAmount), Line(Credit, main, totalAmount)]
    case Cash => []
  }

  /**
   * Purchases and sales post balanced lines exactly when the total is the
   * subtotal less the trade discount and any positive cash discount; the
   * return books post two equal lines and always balance; the cash book
   * posts nothing.
   */
  lemma SubsidiaryLinesBalance(book: BookType, party: Account, main: Account, disc: Option<Account>,
                               subTotal: real, discountAmount: real, totalAmount: real, cd: real)
    requires cd > 0.0 && (book == Purchase || book == Sales) ==> disc.Some?
    ensures var lines := SubsidiaryLines(book, party, main, disc, subTotal, discountAmount, totalAmount, cd);
      DebitTotal(lines) - CreditTotal(lines) ==
        match book
        case Purchase => subTotal - discountAmount - CashDiscountPosted(cd) - totalAmount
        case Sales => totalAmount + CashDiscountPosted(cd) - (subTotal - discountAmount)
        case _ => 0.0
    ensures book == Cash ==> SubsidiaryLines(book, party, main, disc, subTotal, discountAmount, totalAmount, cd) == []
  {
    var gross := subTotal - discountAmount;
    var lines := SubsidiaryLines(book, party, main, disc, subTotal, discountAmount, totalAmount, cd);
    match book
    case Purchase =>
      var head := [Line(Debit, main, gross), Line(Credit, party, totalAmount)];
      var tail := if cd > 0.0 then LineIf(Credit, disc, cd) else [];
      TotalsTwo(Line(Debit, main, gross), Line(Credit, party, totalAmount));
      TotalsAppend(head, tail);
      if cd > 0.0 {
        TotalsOne(Line(Credit, disc.value, cd));
      }
    case Sales =>
      var head := [Line(Debit, party, totalAmount)];
      var mid := if cd > 0.0 then LineIf(Debit, disc, cd) else [];
      var last := [Line(Credit, main, gross)];
      TotalsOne(Line(Debit, party, totalAmount));
      TotalsOne(Line(Credit, main, gross));
      TotalsAppend(head, mid);
      TotalsAppend(head + mid, last);
      if cd > 0.0 {
        TotalsOne(Line(Debit, disc.value, cd));
      }
    case SalesReturn =>
      TotalsTwo(Line(Debit, main, totalAmount), Line(Credit, party, totalAmount));
    case PurchaseReturn =>
      TotalsTwo(Line(Debit, party, totalAmount), Line(Credit, main, totalAmount));
    case Cash =>
  }

  /**
   * The documents the invoice form builds (total = subtotal - trade
   * discount - cash discount) balance whenever the cash discount is not
   * negative.
   */
  lemma InvoiceLinesBalance(book: BookType, party: Account, main: Account, disc: Option<Account>,
                            subTotal: real, discountAmount: real, cd: real)
    requires cd >= 0.0 && (cd > 0.0 ==> disc.Some?)
    ensures Balanced(SubsidiaryLines(book, party, main, disc, subTotal, discountAmount, subTotal - discountAmount - cd, cd))
  {
    SubsidiaryLinesBalance(book, party, main, disc, subTotal, discountAmount, subTotal - discountAmount - cd, cd);
  }

  /** Purchases and sales returns bring goods in; every other book sends them out. */
  function StockKind(book: BookType): StockType {
    if book == Purchase || book == SalesReturn then StockReceipt else StockIssue
  }

  /** Sales and purchase returns value their issues at FIFO cost. */
  predicate CostedAtFifo(book: BookType) {
    book == Sales || book == PurchaseReturn
  }

  /** `quantity > 0 ? amount / quantity : 0`. */
  function UnitRate(amount: real, quantity: real): (r: real)
    ensures quantity > 0.0 ==> r * quantity == amount
    ensures quantity <= 0.0 ==> r == 0.0
  {
    if quantity > 0.0 then amount / quantity else 0.0
  }

  /**
   * The stock transaction an invoice line becomes: at the invoice's own
   * rate and amount, or for costed books at `fifoCost` and the rate it
   * implies.
   */
  function StockMove(id: string, book: BookType, date: int, item: InventoryItem, line: InvoiceItem,
                     fifoCost: real, refDocId: Option<string>): (t: StockTransaction)
    ensures t.kind == StockKind(book) && t.quantity == line.quantity && t.itemId == item.id
    ensures CostedAtFifo(book) ==> t.amount == fifoCost && (line.quantity > 0.0 ==> t.rate * t.quantity == fifoCost)
    ensures !CostedAtFifo(book) ==> t.amount == line.amount && t.rate == line.rate
  {
    if CostedAtFifo(book) then
      StockTransaction(id, date, StockKind(book), item.id, item.name, line.quantity, UnitRate(fifoCost, line.quantity), fifoCost, refDocId)
    else
      StockTransaction(id, date, StockKind(book), item.id, item.name, line.quantity, line.rate, line.amount, refDocId)
  }

  // ---------------------------------------------------------------------
  // Cash book

  /** A line only when its amount is positive. */
  function LineIfPositive(side: Side, a: Account, amount: real): seq<JournalLine> {
    if amount > 0.0 then [Line(side, a, amount)] else []
  }

  /** An opening balance: cash and bank, where positive, against capital. */
  function OpeningLines(c: real, b: real, cash: Account, bank: Account, cap: Account): seq<JournalLine> {
    LineIfPositive(Debit, cash, c) + LineIfPositive(Credit, cap, c)
      + LineIfPositive(Debit, bank, b) + LineIfPositive(Credit, cap, b)
  }

  /** A receipt: cash, bank and discount in, the counter account credited with their sum. */
  function ReceiptLines(c: real, b: real, d: real, cash: Account, bank: Account, other: Account, disc: Option<Account>): seq<JournalLine> {
    LineIfPositive(Debit, cash, c) + LineIfPositive(Debit, bank, b)
      + [Line(Credit, other, c + b + d)]
      + (if d > 0.0 then LineIf(Debit, disc, d) else [])
  }

  /** A payment: the counter account debited with the sum, cash, bank and discount out. */
  function PaymentLines(c: real, b: real, d: real, cash: Account, bank: Account, other: Account, disc: Option<Account>): seq<JournalLine> {
    [Line(Debit, other, c + b + d)]
      + LineIfPositive(Credit, cash, c) + LineIfPositive(Credit, bank, b)
      + (if d > 0.0 then LineIf(Credit, disc, d) else [])
  }

  /**
   * The lines `addCashBookEntry` builds. `cap` is the capital account
   * (resolved for opening balances), `other` the counter account
   * (resolved for ordinary entries) and `disc` the discount account
   * (resolved when the discount is positive).
   */
  function CashBookLines(e: CashBookEntry, cash: Account, bank: Account,
                         cap: Option<Account>, other: Option<Account>, disc: Option<Account>): seq<JournalLine>
  {
    var c, b, d := e.cashAmount, e.bankAmount, e.discountAmount;
    if e.isOpeningBalance then
      (if cap.Some? then OpeningLines(c, b, cash, bank, cap.value) else [])
    else if e.isContra then
      if Contains(Lower(e.accountName), "bank") then [Line(Debit, bank, b), Line(Credit, cash, b)]
      else [Line(Debit, cash, c), Line(Credit, bank, b)]
    else if other.None? then []
    else if e.kind == Receipt then ReceiptLines(c, b, d, cash, bank, other.value, disc)
    else PaymentLines(c, b, d, cash, bank, other.value, disc)
  }

  /** `x` if positive, else nothing. */
  function Pos(x: real): real {
    if x > 0.0 then x else 0.0
  }

  lemma TotalsLineIf(side: Side, a: Option<Account>, amount: real)
    ensures DebitTotal(LineIf(side, a, amount)) == (if a.Some? && side == Debit then amount else 0.0)
    ensures CreditTotal(LineIf(side, a, amount)) == (if a.Some? && side == Credit then amount else 0.0)
  {
    if a.Some? {
      TotalsOne(Line(side, a.value, amount));
    }
  }

  lemma TotalsIfPositive(side: Side, a: Account, amount: real)
    ensures DebitTotal(LineIfPositive(side, a, amount)) == (if side == Debit then Pos(amount) else 0.0)
    ensures CreditTotal(LineIfPositive(side, a, amount)) == (if side == Credit then Pos(amount) else 0.0)
  {
    if amount > 0.0 {
      TotalsOne(Line(side, a, amount));
    }
  }

  /** Debits and credits of four consecutive pieces. */
  lemma TotalsFour(p1: seq<JournalLine>, p2: seq<JournalLine>, p3: seq<JournalLine>, p4: seq<JournalLine>)
    ensures DebitTotal(p1 + p2 + p3 + p4) == DebitTotal(p1) + DebitTotal(p2) + DebitTotal(p3) + DebitTotal(p4)
    ensures CreditTotal(p1 + p2 + p3 + p4) == CreditTotal(p1) + CreditTotal(p2) + CreditTotal(p3) + CreditTotal(p4)
  {
    TotalsAppend(p1, p2);
    TotalsAppend(p1 + p2, p3);
    TotalsAppend(p1 + p2 + p3, p4);
  }

  /** An opening balance always posts balanced lines. */
  lemma OpeningLinesBalance(c: real, b: real, cash: Account, bank: Account, cap: Account)
    ensures DebitTotal(OpeningLines(c, b, cash, bank, cap)) == Pos(c) + Pos(b)
    ensures CreditTotal(OpeningLines(c, b, cash, bank, cap)) == Pos(c) + Pos(b)
  {
    TotalsFour(LineIfPositive(Debit, cash, c), LineIfPositive(Credit, cap, c), LineIfPositive(Debit, bank, b), LineIfPositive(Credit, cap, b));
    TotalsIfPositive(Debit, cash, c);
    TotalsIfPositive(Credit, cap, c);
    TotalsIfPositive(Debit, bank, b);
    TotalsIfPositive(Credit, cap, b);
  }

  /**
   * A receipt debits cash, bank and discount where positive and credits
   * the counter account with their plain sum.
   */
  lemma ReceiptLinesBalance(c: real, b: real, d: real, cash: Account, bank: Account, other: Account, disc: Option<Account>)
    requires d > 0.0 ==> disc.Some?
    ensures DebitTotal(ReceiptLines(c, b, d, cash, bank, other, disc)) == Pos(c) + Pos(b) + Pos(d)
    ensures CreditTotal(ReceiptLines(c, b, d, cash, bank, other, disc)) == c + b + d
  {
    var p4 := if d > 0.0 then LineIf(Debit, disc, d) else [];
    TotalsFour(LineIfPositive(Debit, cash, c), LineIfPositive(Debit, bank, b), [Line(Credit, other, c + b + d)], p4);
    TotalsIfPositive(Debit, cash, c);
    TotalsIfPositive(Debit, bank, b);
    TotalsOne(Line(Credit, other, c + b + d));
    TotalsLineIf(Debit, disc, d);
  }

  /** A payment is the mirror image of a receipt. */
  lemma PaymentLinesBalance(c: real, b: real, d: real, cash: Account, bank: Account, other: Account, disc: Option<Account>)
    requires d > 0.0 ==> disc.Some?
    ensures DebitTotal(PaymentLines(c, b, d, cash, bank, other, disc)) == c + b + d
    ensures CreditTotal(PaymentLines(c, b, d, cash, bank, other, disc)) == Pos(c) + Pos(b) + Pos(d)
  {
    var p4 := if d > 0.0 then LineIf(Credit, disc, d) else [];
    TotalsFour([Line(Debit, other, c + b + d)], LineIfPositive(Credit, cash, c), LineIfPositive(Credit, bank, b), p4);
    TotalsOne(Line(Debit, other, c + b + d));
    TotalsIfPositive(Credit, cash, c);
    TotalsIfPositive(Credit, bank, b);
    TotalsLineIf(Credit, disc, d);
  }

  /**
   * A contra entry whose name mentions the bank balances; the other
   * branch debits the cash amount and credits the bank amount.
   */
  lemma ContraLinesBalance(e: CashBookEntry, cash: Account, bank: Account,
                           cap: Option<Account>, other: Option<Account>, disc: Option<Account>)
    requires !e.isOpeningBalance && e.isContra
    ensures var lines := CashBookLines(e, cash, bank, cap, other, disc);
      DebitTotal(lines) - CreditTotal(lines) == if Contains(Lower(e.accountName), "bank") then 0.0 else e.cashAmount - e.bankAmount
  {
    TotalsTwo(Line(Debit, bank, e.bankAmount), Line(Credit, cash, e.bankAmount));
    TotalsTwo(Line(Debit, cash, e.cashAmount), Line(Credit, bank, e.bankAmount));
  }

  /**
   * Every opening balance, and every ordinary receipt or payment with no
   * negative amount, posts balanced lines.
   */
  lemma CashBookLinesBalance(e: CashBookEntry, cash: Account, bank: Account,
                             cap: Option<Account>, other: Option<Account>, disc: Option<Account>)
    requires !e.isContra
    requires !e.isOpeningBalance ==> e.cashAmount >= 0.0 && e.bankAmount >= 0.0 && e.discountAmount >= 0.0
    requires !e.isOpeningBalance && e.discountAmount > 0.0 ==> disc.Some?
    ensures DebitTotal(CashBookLines(e, cash, bank, cap, other, disc)) == CreditTotal(CashBookLines(e, cash, bank, cap, other, disc))
  {
    var c, b, d := e.cashAmount, e.bankAmount, e.discountAmount;
    if e.isOpeningBalance {
      if cap.Some? {
        OpeningLinesBalance(c, b, cash, bank, cap.value);
      }
    } else if other.Some? {
      if e.kind == Receipt {
        ReceiptLinesBalance(c, b, d, cash, bank, other.value, disc);
      } else {
        PaymentLinesBalance(c, b, d, cash, bank, other.value, disc);
      }
    }
  }

  /** The two account names the cash-book form gives a contra entry. */
  function ContraName(kind: CashType): string {
    if kind == Receipt then "Contra: Bank to Cash" else "Contra: Cash to Bank"
  }

  /**
   * Both contra names contain "bank" once lower-cased, so every contra
   * entry the form produces debits the bank and credits cash with the bank
   * amount, whichever way the money moved.
   */
  lemma ContraAlwaysDebitsBank(e: CashBookEntry, cash: Account, bank: Account,
                               cap: Option<Account>, other: Option<Account>, disc: Option<Account>)
    requires !e.isOpeningBalance && e.isContra && e.accountName == ContraName(e.kind)
    ensures CashBookLines(e, cash, bank, cap, other, disc) == [Line(Debit, bank, e.bankAmount), Line(Credit, cash, e.bankAmount)]
  {
    if e.kind == Receipt {
      MentionsBank(e.accountName, 8);
    } else {
      MentionsBank(e.accountName, 16);
    }
  }

  /** A name with "Bank" at offset `i` contains "bank" once lower-cased. */
  lemma MentionsBank(s: string, i: nat)
    requires i + 4 <= |s| && s[i..i + 4] == "Bank"
    ensures Contains(Lower(s), "bank")
  {
    var l := Lower(s);
    assert s[i] == 'B' && s[i + 1] == 'a' && s[i + 2] == 'n' && s[i + 3] == 'k' by {
      assert s[i..i + 4][0] == s[i] && s[i..i + 4][1] == s[i + 1];
      assert s[i..i + 4][2] == s[i + 2] && s[i..i + 4][3] == s[i + 3];
    }
    assert LowerChar('B') == 'b' && LowerChar('a') == 'a' && LowerChar('n') == 'n' && LowerChar('k') == 'k';
    assert l[i] == 'b' && l[i + 1] == 'a' && l[i + 2] == 'n' && l[i + 3] == 'k';
    var w := l[i..i + 4];
    assert |w| == 4 && w[0] == l[i] && w[1] == l[i + 1] && w[2] == l[i + 2] && w[3] == l[i + 3];
    assert w == "bank";
    ContainsWitness(l, "bank", i);
  }

  // ---------------------------------------------------------------------
  // Depreciation

  /** `postDepreciation`'s two lines: debit the depreciation account, credit the asset. */
  function DepreciationLines(dep: Account, asset: Account, amount: real): (lines: seq<JournalLine>)
    ensures |lines| == 2 && lines[0].accountId == dep.id && lines[1].accountId == asset.id
    ensures lines[0].side == Debit && lines[1].side == Credit && lines[0].amount == amount && lines[1].amount == amount
    ensures Balanced(lines)
  {
    var lines := [Line(Debit, dep, amount), Line(Credit, asset, amount)];
    TotalsTwo(lines[0], lines[1]);
    lines
  }
}
