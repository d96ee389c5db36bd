/**
 * `getFiscalAnalysis`: the waterfall from account balances to the
 * trading account, the profit and loss account and the balance-sheet
 * check. Every account whose balance is not negligible adds its balance
 * to one bucket: revenue and expense by category to the trading or P&L
 * side, assets, liabilities and equity (drawings excepted) to the
 * balance sheet.
 */
module Fiscal {
  import opened Model
  import opened Journal

  /** Balances smaller than this are left out of every bucket. */
  const Negligible: real := 0.001

  datatype Totals = Totals(
    tradingDr: real, tradingCr: real,
    plDr: real, plCr: real,
    assets: real, liabilities: real, equity: real)

  const Zero: Totals := Totals(0.0, 0.0, 0.0, 0.0, 0.0, 0.0, 0.0)

  function Plus(t: Totals, u: Totals): Totals {
    Totals(t.tradingDr + u.tradingDr, t.tradingCr + u.tradingCr, t.plDr + u.plDr, t.plCr + u.plCr,
           t.assets + u.assets, t.liabilities + u.liabilities, t.equity + u.equity)
  }

  /** The revenue-and-expense buckets are never negative. */
  predicate NominalNonNegative(t: Totals) {
    t.tradingDr >= 0.0 && t.tradingCr >= 0.0 && t.plDr >= 0.0 && t.plCr >= 0.0
  }

  /** What one account with balance `bal` adds to the buckets. */
  function Contribution(a: Account, bal: real): (c: Totals)
    ensures Abs(bal) < Negligible ==> c == Zero
    ensures NominalNonNegative(c) && c.liabilities >= 0.0 && c.equity >= 0.0
    ensures a.kind == Revenue || a.kind == Expense ==> c.assets == 0.0 && c.liabilities == 0.0 && c.equity == 0.0
    ensures a.kind != Revenue && a.kind != Expense ==> c.tradingDr == 0.0 && c.tradingCr == 0.0 && c.plDr == 0.0 && c.plCr == 0.0
    ensures a.kind == Revenue ==> c.tradingDr == 0.0 && c.plDr == 0.0
    ensures a.kind == Expense ==> c.tradingCr == 0.0 && c.plCr == 0.0
    ensures a.classification == OwnerDrawings ==> c.equity == 0.0
    ensures a.kind == Asset ==> c.assets == (if Abs(bal) < Negligible then 0.0 else bal)
  {
    if Abs(bal) < Negligible then Zero
    else if a.kind == Revenue || a.kind == Expense then
      var direct := a.category == Some(Direct);
      if a.kind == Revenue then
        (if direct then Zero.(tradingCr := Abs(bal)) else Zero.(plCr := Abs(bal)))
      else
        (if direct then Zero.(tradingDr := Abs(bal)) else Zero.(plDr := Abs(bal)))
    else if a.kind == Asset then Zero.(assets := bal)
    else if a.kind == Liability then Zero.(liabilities := Abs(bal))
    else if a.classification != OwnerDrawings then Zero.(equity := Abs(bal))
    else Zero
  }

  /** The buckets after the `forEach` over `accounts`. */
  function Accumulate(accounts: seq<Account>, entries: seq<JournalEntry>): Totals {
    if accounts == [] then Zero
    else
      var a := accounts[|accounts| - 1];
      Plus(Accumulate(accounts[..|accounts| - 1], entries), Contribution(a, Balance(entries, a.id)))
  }

  /** The revenue-and-expense buckets of the fold are never negative. */
  lemma {:induction false} AccumulateNonNegative(accounts: seq<Account>, entries: seq<JournalEntry>)
    ensures NominalNonNegative(Accumulate(accounts, entries))
    ensures Accumulate(accounts, entries).liabilities >= 0.0
    decreases |accounts|
  {
    if accounts != [] {
      AccumulateNonNegative(accounts[..|accounts| - 1], entries);
    }
  }

  /** An account with a negligible balance changes none of the buckets. */
  lemma NegligibleAccountIgnored(accounts: seq<Account>, a: Account, entries: seq<JournalEntry>)
    requires Abs(Balance(entries, a.id)) < Negligible
    ensures Accumulate(accounts + [a], entries) == Accumulate(accounts, entries)
  {
    assert (accounts + [a])[..|accounts|] == accounts;
  }

  /**
   * The loop of `getFiscalAnalysis` over the accounts, each balance
   * computed by the journal fold.
   */
  method AccumulateAccounts(accounts: seq<Account>, entries: seq<JournalEntry>) returns (t: Totals)
    ensures t == Accumulate(accounts, entries)
  {
    t := Zero;
    var i := 0;
    while i < |accounts|
      invariant 0 <= i <= |accounts|
      invariant t == Accumulate(accounts[..i], entries)
    {
      var bal, _ := FoldBalance(entries, accounts[i].id);
      t := Plus(t, Contribution(accounts[i], bal));
      assert accounts[..i + 1][..i] == accounts[..i];
      i := i + 1;
    }
    assert accounts[..i] == accounts;
  }

  /** The value stock movements carry: receipts add, issues subtract. */
  function StockValueDelta(t: StockTransaction): real {
    if t.kind == StockReceipt then t.amount else -t.amount
  }

  /** `closingStockValue`: the signed amounts of every stock movement. */
  function ClosingStock(txns: seq<StockTransaction>): real {
    if txns == [] then 0.0 else ClosingStock(txns[..|txns| - 1]) + StockValueDelta(txns[|txns| - 1])
  }

  function AmountOf(txns: seq<StockTransaction>, kind: StockType): real {
    if txns == [] then 0.0
    else AmountOf(txns[..|txns| - 1], kind) + (if txns[|txns| - 1].kind == kind then txns[|txns| - 1].amount else 0.0)
  }

  /** Closing stock is the value received less the value issued. */
  lemma {:induction false} ClosingStockIsReceivedMinusIssued(txns: seq<StockTransaction>)
    ensures ClosingStock(txns) == AmountOf(txns, StockReceipt) - AmountOf(txns, StockIssue)
    decreases |txns|
  {
    if txns != [] {
      ClosingStockIsReceivedMinusIssued(txns[..|txns| - 1]);
    }
  }

  /** The drawings total: the absolute balances of every drawings account, however small. */
  function Drawings(accounts: seq<Account>, entries: seq<JournalEntry>): (d: real)
    ensures d >= 0.0
  {
    if accounts == [] then 0.0
    else
      var a := accounts[|accounts| - 1];
      Drawings(accounts[..|accounts| - 1], entries) + (if a.classification == OwnerDrawings then Abs(Balance(entries, a.id)) else 0.0)
  }

  /** The balance of the first account with exactly this name, or 0 if none. */
  function NamedBalance(accounts: seq<Account>, entries: seq<JournalEntry>, name: string): real {
    if accounts == [] then 0.0
    else if accounts[0].name == name then Balance(entries, accounts[0].id)
    else NamedBalance(accounts[1..], entries, name)
  }

  /** The figures `getFiscalAnalysis` returns (and the gross loss it computes on the way). */
  datatype FiscalAnalysis = FiscalAnalysis(
    openingStock: real,
    closingStock: real,
    grossProfit: real,
    grossLoss: real,
    netProfit: real,
    netLoss: real,
    isBalanced: bool,
    totalAssets: real,
    totalLiabilities: real,
    totalEquity: real,
    cashBalance: real,
    bankBalance: real)

  /** The waterfall after the account loop: stock, drawings, gross and net result, the balance check. */
  function Finish(t: Totals, opening: real, closing: real, drawings: real, cash: real, bank: real): FiscalAnalysis {
    var tradingDr := t.tradingDr + opening;
    var tradingCr := t.tradingCr + closing;
    var assets := t.assets + closing;
    var equity := t.equity - drawings;
    var grossProfit := Max(0.0, tradingCr - tradingDr);
    var grossLoss := Max(0.0, tradingDr - tradingCr);
    var plCr := t.plCr + grossProfit;
    var plDr := t.plDr + grossLoss;
    var netProfit := Max(0.0, plCr - plDr);
    var netLoss := Max(0.0, plDr - plCr);
    var finalEquity := equity + netProfit - netLoss;
    FiscalAnalysis(opening, closing, grossProfit, grossLoss, netProfit, netLoss,
      Abs(assets - (t.liabilities + finalEquity)) < 1.0, assets, t.liabilities, finalEquity, cash, bank)
  }

  /** `getFiscalAnalysis` as a function of the stores. */
  function Analysis(accounts: seq<Account>, entries: seq<JournalEntry>, txns: seq<StockTransaction>): FiscalAnalysis {
    Finish(Accumulate(accounts, entries),
      Abs(NamedBalance(accounts, entries, "Stock A/c")), ClosingStock(txns), Drawings(accounts, entries),
      NamedBalance(accounts, entries, "Cash A/c"), NamedBalance(accounts, entries, "Bank A/c"))
  }

  /**
   * Gross profit and gross loss are never both positive, nor net profit
   * and net loss; the gross result is the trading credit side less the
   * debit side (closing stock credited, opening stock debited), the net
   * result is all credits less all debits, and the equity reported is
   * the accumulated equity less drawings plus the net result.
   */
  lemma FinishFacts(t: Totals, opening: real, closing: real, drawings: real, cash: real, bank: real)
    ensures var r := Finish(t, opening, closing, drawings, cash, bank);
      r.grossProfit >= 0.0 && r.grossLoss >= 0.0 && !(r.grossProfit > 0.0 && r.grossLoss > 0.0) &&
      r.grossProfit - r.grossLoss == (t.tradingCr + closing) - (t.tradingDr + opening) &&
      r.netProfit >= 0.0 && r.netLoss >= 0.0 && !(r.netProfit > 0.0 && r.netLoss > 0.0) &&
      r.netProfit - r.netLoss == (t.tradingCr + closing + t.plCr) - (t.tradingDr + opening + t.plDr) &&
      r.totalEquity == t.equity - drawings + r.netProfit - r.netLoss &&
      r.totalAssets == t.assets + closing &&
      (r.isBalanced <==> Abs(r.totalAssets - (r.totalLiabilities + r.totalEquity)) < 1.0)
  {
  }

  /** The properties of the whole analysis of a store. */
  lemma AnalysisFacts(accounts: seq<Account>, entries: seq<JournalEntry>, txns: seq<StockTransaction>)
    ensures var r := Analysis(accounts, entries, txns);
      !(r.grossProfit > 0.0 && r.grossLoss > 0.0) && !(r.netProfit > 0.0 && r.netLoss > 0.0) &&
      r.closingStock == AmountOf(txns, StockReceipt) - AmountOf(txns, StockIssue) &&
      r.openingStock >= 0.0 && r.totalLiabilities >= 0.0
  {
    var t := Accumulate(accounts, entries);
    FinishFacts(t, Abs(NamedBalance(accounts, entries, "Stock A/c")), ClosingStock(txns), Drawings(accounts, entries),
      NamedBalance(accounts, entries, "Cash A/c"), NamedBalance(accounts, entries, "Bank A/c"));
    ClosingStockIsReceivedMinusIssued(txns);
    AccumulateNonNegative(accounts, entries);
  }

  /** Finds the balance of the first account with the name, by the journal fold. */
  method FindNamedBalance(accounts: seq<Account>, entries: seq<JournalEntry>, name: string) returns (bal: real)
    ensures bal == NamedBalance(accounts, entries, name)
  {
    var i := 0;
    while i < |accounts| && accounts[i].name != name
      invariant 0 <= i <= |accounts|
      invariant NamedBalance(accounts[i..], entries, name) == NamedBalance(accounts, entries, name)
    {
      assert accounts[i..][1..] == accounts[i + 1..];
      i := i + 1;
    }
    if i < |accounts| {
      var touched;
      bal, touched := FoldBalance(entries, accounts[i].id);
    } else {
      bal := 0.0;
    }
  }

  /** `getFiscalAnalysis`. */
  method GetFiscalAnalysis(accounts: seq<Account>, entries: seq<JournalEntry>, txns: seq<StockTransaction>)
    returns (r: FiscalAnalysis)
    ensures r == Analysis(accounts, entries, txns)
  {
    var t := AccumulateAccounts(accounts, entries);
    var cash := FindNamedBalance(accounts, entries, "Cash A/c");
    var bank := FindNamedBalance(accounts, entries, "Bank A/c");
    var stock := FindNamedBalance(accounts, entries, "Stock A/c");
    r := Finish(t, Abs(stock), ClosingStock(txns), Drawings(accounts, entries), cash, bank);
  }
}
