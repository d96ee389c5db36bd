/**
 * The final-accounts statements: the trading account, the profit and
 * loss account and the balance sheet, drawn from the accounts' ledger
 * balances and from the fiscal analysis (stock, cash and bank).
 */
module FinalAccounts {
  import opened Model
  import opened Journal
  import opened Fiscal

  /** An account with its ledger balance, as the statements list it. */
  datatype LedgerBalance = LedgerBalance(account: Account, rawBalance: real, absBalance: real, isDebit: bool, isCredit: bool)

  function BalanceRecord(a: Account, balance: real): (r: LedgerBalance)
    ensures r.account == a && r.rawBalance == balance && r.absBalance == Abs(balance)
    ensures r.isDebit <==> balance > 0.0
    ensures r.isCredit <==> balance < 0.0
  {
    LedgerBalance(a, balance, Abs(balance), balance > 0.0, balance < 0.0)
  }

  /** `ledgerBalances`: the accounts whose balance is not negligible, in account order. */
  function LedgerBalances(accounts: seq<Account>, entries: seq<JournalEntry>): (r: seq<LedgerBalance>)
    ensures |r| <= |accounts|
    ensures forall i :: 0 <= i < |r| ==> r[i].absBalance > 0.001
  {
    if accounts == [] then []
    else
      var a := accounts[|accounts| - 1];
      var lb := BalanceRecord(a, Balance(entries, a.id));
      LedgerBalances(accounts[..|accounts| - 1], entries) + (if lb.absBalance > 0.001 then [lb] else [])
  }

  /** Each listed record is the ledger balance of an account of the registry. */
  lemma {:induction false} LedgerBalancesSound(accounts: seq<Account>, entries: seq<JournalEntry>, i: nat)
    requires i < |LedgerBalances(accounts, entries)|
    ensures var lb := LedgerBalances(accounts, entries)[i];
      lb.account in accounts && lb == BalanceRecord(lb.account, Balance(entries, lb.account.id))
    decreases |accounts|
  {
    var init := accounts[..|accounts| - 1];
    if i < |LedgerBalances(init, entries)| {
      LedgerBalancesSound(init, entries, i);
    }
  }

  /** Every account whose balance exceeds 0.001 in size is listed. */
  lemma {:induction false} LedgerBalancesComplete(accounts: seq<Account>, entries: seq<JournalEntry>, a: Account)
    requires a in accounts && Abs(Balance(entries, a.id)) > 0.001
    ensures BalanceRecord(a, Balance(entries, a.id)) in LedgerBalances(accounts, entries)
    decreases |accounts|
  {
    var init := accounts[..|accounts| - 1];
    if a != accounts[|accounts| - 1] {
      assert a in init by {
        var k :| 0 <= k < |accounts| && accounts[k] == a;
        assert init[k] == a;
      }
      LedgerBalancesComplete(init, entries, a);
    }
  }

  /** The nested loops that compute every account's balance, keeping the non-negligible ones. */
  method BuildLedgerBalances(accounts: seq<Account>, entries: seq<JournalEntry>) returns (r: seq<LedgerBalance>)
    ensures r == LedgerBalances(accounts, entries)
  {
    r := [];
    var i := 0;
    while i < |accounts|
      invariant 0 <= i <= |accounts|
      invariant r == LedgerBalances(accounts[..i], entries)
    {
      var balance, _ := FoldBalance(entries, accounts[i].id);
      var lb := BalanceRecord(accounts[i], balance);
      if lb.absBalance > 0.001 {
        r := r + [lb];
      }
      assert accounts[..i + 1][..i] == accounts[..i];
      i := i + 1;
    }
    assert accounts[..i] == accounts;
  }

  /** The records satisfying `p`, in order. */
  function Select(lbs: seq<LedgerBalance>, p: LedgerBalance -> bool): (r: seq<LedgerBalance>)
    ensures |r| <= |lbs|
    ensures forall i :: 0 <= i < |r| ==> p(r[i]) && r[i] in lbs
    ensures forall x :: x in lbs && p(x) ==> x in r
  {
    if lbs == [] then []
    else (if p(lbs[0]) then [lbs[0]] else []) + Select(lbs[1..], p)
  }

  function SumAbs(lbs: seq<LedgerBalance>): real {
    if lbs == [] then 0.0 else lbs[0].absBalance + SumAbs(lbs[1..])
  }

  /** The size of the first listed balance with this name, or 0. */
  function NamedAbs(lbs: seq<LedgerBalance>, name: string): real {
    if lbs == [] then 0.0
    else if lbs[0].account.name == name then lbs[0].absBalance
    else NamedAbs(lbs[1..], name)
  }

  /** The size of the first listed balance of this classification, or 0. */
  function ClassifiedAbs(lbs: seq<LedgerBalance>, c: Classification): real {
    if lbs == [] then 0.0
    else if lbs[0].account.classification == c then lbs[0].absBalance
    else ClassifiedAbs(lbs[1..], c)
  }

  predicate DirectExpense(a: LedgerBalance) {
    a.account.kind == Expense && a.account.category == Some(Direct)
      && a.account.name != "Purchase A/c" && a.account.name != "Sales Return A/c"
  }

  predicate IndirectExpense(a: LedgerBalance) {
    a.account.kind == Expense && a.account.category != Some(Direct)
  }

  predicate IndirectIncome(a: LedgerBalance) {
    a.account.kind == Revenue && a.account.category != Some(Direct)
  }

  predicate Debtor(a: LedgerBalance) { a.account.classification == SundryDebtor }

  predicate Creditor(a: LedgerBalance) { a.account.classification == SundryCreditor }

  predicate FixedAsset(a: LedgerBalance) {
    a.account.kind == Asset && a.account.classification == TangibleAsset
  }

  predicate OtherLiability(a: LedgerBalance) {
    a.account.kind == Liability && a.account.classification != SundryCreditor
      && a.account.classification != OwnerCapital && a.account.name != "Bank A/c"
  }

  /** The figures the three statements show. */
  datatype Statements = Statements(
    openingStock: real, closingStock: real,
    netPurchases: real, netSales: real,
    grossSales: real, salesReturn: real, grossPurchases: real, purchaseReturn: real,
    directExpenses: seq<LedgerBalance>,
    totalDirectExp: real, totalDirectInc: real,
    grossProfit: real, grossLoss: real, tradingTotal: real,
    indirectExpenses: seq<LedgerBalance>, indirectIncomes: seq<LedgerBalance>,
    plDebitTotal: real, plCreditTotal: real,
    netProfit: real, netLoss: real, plTotal: real,
    netCapital: real, openingCapital: real, drawingsAmount: real,
    otherLiabilities: seq<LedgerBalance>, creditors: seq<LedgerBalance>,
    bankBalance: real, isOverdraft: bool, cashBalance: real,
    fixedAssets: seq<LedgerBalance>, debtors: seq<LedgerBalance>,
    assetSideTotal: real, liabilitySideTotal: real, bsDifference: real)

  /** The positive part of a balance: what it puts on the asset side. */
  function AssetPart(x: real): real { if x > 0.0 then x else 0.0 }

  /** The negative part of a balance, as a size: what it puts on the liability side. */
  function LiabilityPart(x: real): real { if x < 0.0 then -x else 0.0 }

  /** The `data` computation of the final-accounts view, from the ledger balances and the fiscal analysis. */
  function BuildStatements(lbs: seq<LedgerBalance>, fiscal: FiscalAnalysis): Statements {
    var grossSales := NamedAbs(lbs, "Sales A/c");
    var salesReturn := NamedAbs(lbs, "Sales Return A/c");
    var netSales := Max(0.0, grossSales - salesReturn);
    var grossPurchases := NamedAbs(lbs, "Purchase A/c");
    var purchaseReturn := NamedAbs(lbs, "Purchase Return A/c");
    var netPurchases := Max(0.0, grossPurchases - purchaseReturn);
    var openingStock := fiscal.openingStock;
    var closingStock := fiscal.closingStock;
    var directExpenses := Select(lbs, DirectExpense);
    var totalDirectExp := openingStock + netPurchases + SumAbs(directExpenses);
    var totalDirectInc := netSales + closingStock;
    var grossProfit := if totalDirectInc > totalDirectExp then totalDirectInc - totalDirectExp else 0.0;
    var grossLoss := if totalDirectExp > totalDirectInc then totalDirectExp - totalDirectInc else 0.0;
    var tradingTotal := Max(totalDirectExp + grossProfit, totalDirectInc + grossLoss);
    var indirectExpenses := Select(lbs, IndirectExpense);
    var indirectIncomes := Select(lbs, IndirectIncome);
    var plDebitTotal := SumAbs(indirectExpenses) + grossLoss;
    var plCreditTotal := SumAbs(indirectIncomes) + grossProfit;
    var netProfit := if plCreditTotal > plDebitTotal then plCreditTotal - plDebitTotal else 0.0;
    var netLoss := if plDebitTotal > plCreditTotal then plDebitTotal - plCreditTotal else 0.0;
    var plTotal := Max(plDebitTotal, plCreditTotal);
    var drawingsAmount := ClassifiedAbs(lbs, OwnerDrawings);
    var openingCapital := ClassifiedAbs(lbs, OwnerCapital);
    var netCapital := openingCapital + netProfit - netLoss - drawingsAmount;
    var cash := fiscal.cashBalance;
    var bank := fiscal.bankBalance;
    var isOverdraft := bank < 0.0;
    var debtors := Select(lbs, Debtor);
    var creditors := Select(lbs, Creditor);
    var fixedAssets := Select(lbs, FixedAsset);
    var assetSideTotal := (if cash > 0.0 then cash else 0.0) + (if isOverdraft then 0.0 else bank)
      + SumAbs(fixedAssets) + SumAbs(debtors) + closingStock;
    var otherLiabilities := Select(lbs, OtherLiability);
    var liabilitySideTotal := netCapital + SumAbs(otherLiabilities) + SumAbs(creditors)
      + (if isOverdraft then Abs(bank) else 0.0) + (if cash < 0.0 then Abs(cash) else 0.0);
    Statements(openingStock, closingStock, netPurchases, netSales, grossSales, salesReturn, grossPurchases, purchaseReturn,
      directExpenses, totalDirectExp, totalDirectInc, grossProfit, grossLoss, tradingTotal,
      indirectExpenses, indirectIncomes, plDebitTotal, plCreditTotal, netProfit, netLoss, plTotal,
      netCapital, openingCapital, drawingsAmount, otherLiabilities, creditors, bank, isOverdraft, cash,
      fixedAssets, debtors, assetSideTotal, liabilitySideTotal, Abs(assetSideTotal - liabilitySideTotal))
  }

  /** Net sales and net purchases are never negative, whatever the returns. */
  lemma NetFiguresNonNegative(lbs: seq<LedgerBalance>, fiscal: FiscalAnalysis)
    ensures var s := BuildStatements(lbs, fiscal);
      s.netSales >= 0.0 && s.netPurchases >= 0.0
      && (s.grossSales >= s.salesReturn ==> s.netSales == s.grossSales - s.salesReturn)
      && (s.grossPurchases >= s.purchaseReturn ==> s.netPurchases == s.grossPurchases - s.purchaseReturn)
  {
  }

  /**
   * The trading account: gross profit and gross loss are never both
   * positive, their difference is direct income less direct expenses,
   * and both sides of the account close at the same total.
   */
  lemma TradingAccountCloses(lbs: seq<LedgerBalance>, fiscal: FiscalAnalysis)
    ensures var s := BuildStatements(lbs, fiscal);
      s.grossProfit >= 0.0 && s.grossLoss >= 0.0 && !(s.grossProfit > 0.0 && s.grossLoss > 0.0)
      && s.grossProfit - s.grossLoss == s.totalDirectInc - s.totalDirectExp
      && s.tradingTotal == s.totalDirectExp + s.grossProfit
      && s.tradingTotal == s.totalDirectInc + s.grossLoss
  {
  }

  /**
   * The profit and loss account: net profit and net loss are never both
   * positive, both sides close at the larger side's total, and the net
   * result is the gross result plus indirect income less indirect
   * expenses.
   */
  lemma ProfitAndLossCloses(lbs: seq<LedgerBalance>, fiscal: FiscalAnalysis)
    ensures var s := BuildStatements(lbs, fiscal);
      s.netProfit >= 0.0 && s.netLoss >= 0.0 && !(s.netProfit > 0.0 && s.netLoss > 0.0)
      && s.plTotal == s.plDebitTotal + s.netProfit && s.plTotal == s.plCreditTotal + s.netLoss
      && s.netProfit - s.netLoss
         == s.grossProfit - s.grossLoss + SumAbs(s.indirectIncomes) - SumAbs(s.indirectExpenses)
  {
  }

  /** The capital shown is the opening capital plus the net result less drawings. */
  lemma NetCapitalRollForward(lbs: seq<LedgerBalance>, fiscal: FiscalAnalysis)
    ensures var s := BuildStatements(lbs, fiscal);
      s.netCapital == s.openingCapital + (s.netProfit - s.netLoss) - s.drawingsAmount
  {
  }

  /**
   * Cash and bank each appear on one side only: a positive balance on the
   * asset side, an overdrawn one on the liability side; either way the
   * two sides differ by exactly the balance.
   */
  lemma CashAndBankOnOneSide(lbs: seq<LedgerBalance>, fiscal: FiscalAnalysis)
    ensures var s := BuildStatements(lbs, fiscal);
      s.assetSideTotal == AssetPart(s.cashBalance) + AssetPart(s.bankBalance)
        + SumAbs(s.fixedAssets) + SumAbs(s.debtors) + s.closingStock
      && s.liabilitySideTotal == s.netCapital + SumAbs(s.otherLiabilities) + SumAbs(s.creditors)
        + LiabilityPart(s.bankBalance) + LiabilityPart(s.cashBalance)
  {
  }

  lemma PartsOfBalance(x: real)
    ensures AssetPart(x) >= 0.0 && LiabilityPart(x) >= 0.0
    ensures AssetPart(x) == 0.0 || LiabilityPart(x) == 0.0
    ensures AssetPart(x) - LiabilityPart(x) == x
  {
  }

  /** The balance-sheet difference is never negative, and is 0 exactly when the sides agree. */
  lemma DifferenceNonNegative(lbs: seq<LedgerBalance>, fiscal: FiscalAnalysis)
    ensures var s := BuildStatements(lbs, fiscal);
      s.bsDifference >= 0.0 && (s.bsDifference == 0.0 <==> s.assetSideTotal == s.liabilitySideTotal)
  {
  }
}
