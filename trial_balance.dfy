/**
 * The trial balance: one row per account with its balance in the
 * debit or credit column, the anomaly flag for a balance on the wrong
 * side, the column totals and the balanced check.
 */
module TrialBalance {
  import opened Model
  import opened Journal
  import opened JsText

  datatype Row = Row(account: Account, debit: real, credit: real, isAnomaly: bool, hasEntries: bool, balance: real)

  /** Asset and expense accounts normally carry a debit balance; the others a credit balance. */
  predicate DebitNature(k: AccountType) {
    k == Asset || k == Expense
  }

  /** The row for an account whose lines sum to `balance`. */
  function RowFor(a: Account, balance: real, hasEntries: bool): (r: Row)
    ensures r.account == a && r.balance == balance && r.hasEntries == hasEntries
    ensures r.debit >= 0.0 && r.credit >= 0.0 && !(r.debit > 0.0 && r.credit > 0.0)
    ensures r.debit > 0.0 <==> balance > 0.001
    ensures r.credit > 0.0 <==> balance < -0.001
    ensures r.debit > 0.0 || r.credit > 0.0 ==> r.debit - r.credit == balance
    ensures r.isAnomaly <==> (Abs(balance) > 0.01 && !Contains(Lower(a.name), "return")
      && (if DebitNature(a.kind) then balance < 0.0 else balance > 0.0))
  {
    var isDebit := balance > 0.001;
    var isCredit := balance < -0.001;
    var absBal := Abs(balance);
    var isReturn := Contains(Lower(a.name), "return");
    var isAnomaly := absBal > 0.01 &&
      ((DebitNature(a.kind) && isCredit && !isReturn) || (!DebitNature(a.kind) && isDebit && !isReturn));
    Row(a, if isDebit then absBal else 0.0, if isCredit then absBal else 0.0, isAnomaly, hasEntries, balance)
  }

  /** The row of account `a` over the whole journal. */
  function AccountRow(a: Account, entries: seq<JournalEntry>): Row {
    RowFor(a, Balance(entries, a.id), HasLine(entries, a.id))
  }

  /** A row is shown when its account has a line, and the cash account always. */
  predicate Shown(r: Row) {
    r.hasEntries || r.account.code == "1001"
  }

  /** The rows shown, in account order. */
  function Rows(accounts: seq<Account>, entries: seq<JournalEntry>): seq<Row> {
    if accounts == [] then []
    else
      var r := AccountRow(accounts[|accounts| - 1], entries);
      Rows(accounts[..|accounts| - 1], entries) + (if Shown(r) then [r] else [])
  }

  /** The debit column summed over every account, shown or not. */
  function TotalDebit(accounts: seq<Account>, entries: seq<JournalEntry>): real {
    if accounts == [] then 0.0
    else TotalDebit(accounts[..|accounts| - 1], entries) + AccountRow(accounts[|accounts| - 1], entries).debit
  }

  function TotalCredit(accounts: seq<Account>, entries: seq<JournalEntry>): real {
    if accounts == [] then 0.0
    else TotalCredit(accounts[..|accounts| - 1], entries) + AccountRow(accounts[|accounts| - 1], entries).credit
  }

  function SumDebit(rows: seq<Row>): real {
    if rows == [] then 0.0 else SumDebit(rows[..|rows| - 1]) + rows[|rows| - 1].debit
  }

  function SumCredit(rows: seq<Row>): real {
    if rows == [] then 0.0 else SumCredit(rows[..|rows| - 1]) + rows[|rows| - 1].credit
  }

  lemma SumsSnoc(rows: seq<Row>, r: Row)
    ensures SumDebit(rows + [r]) == SumDebit(rows) + r.debit
    ensures SumCredit(rows + [r]) == SumCredit(rows) + r.credit
  {
    assert (rows + [r])[..|rows|] == rows;
  }

  /**
   * The totals accumulate over every account before the filter, yet
   * they equal the sums of the shown rows: a hidden account has no
   * line, so its balance is 0 and both its columns are empty.
   */
  lemma {:induction false} TotalsAreShownColumns(accounts: seq<Account>, entries: seq<JournalEntry>)
    ensures TotalDebit(accounts, entries) == SumDebit(Rows(accounts, entries))
    ensures TotalCredit(accounts, entries) == SumCredit(Rows(accounts, entries))
    decreases |accounts|
  {
    if accounts != [] {
      var init := accounts[..|accounts| - 1];
      var a := accounts[|accounts| - 1];
      TotalsAreShownColumns(init, entries);
      var r := AccountRow(a, entries);
      if Shown(r) {
        SumsSnoc(Rows(init, entries), r);
      } else {
        UntouchedBalanceZero(entries, a.id);
        assert Rows(accounts, entries) == Rows(init, entries) + [];
        assert Rows(init, entries) + [] == Rows(init, entries);
      }
    }
  }

  /** Every shown row belongs to an account of the registry and is that account's row. */
  lemma {:induction false} RowsSound(accounts: seq<Account>, entries: seq<JournalEntry>, i: nat)
    requires i < |Rows(accounts, entries)|
    ensures var r := Rows(accounts, entries)[i];
      r.account in accounts && Shown(r) && r == AccountRow(r.account, entries)
    decreases |accounts|
  {
    var init := accounts[..|accounts| - 1];
    if i < |Rows(init, entries)| {
      RowsSound(init, entries, i);
    }
  }

  /** Every account with a line, and the cash account, has its row shown. */
  lemma {:induction false} RowsComplete(accounts: seq<Account>, entries: seq<JournalEntry>, a: Account)
    requires a in accounts && (HasLine(entries, a.id) || a.code == "1001")
    ensures AccountRow(a, entries) in Rows(accounts, entries)
    decreases |accounts|
  {
    var init := accounts[..|accounts| - 1];
    if a != accounts[|accounts| - 1] {
      assert a in init by {
        var k :| 0 <= k < |accounts| && accounts[k] == a;
        assert init[k] == a;
      }
      RowsComplete(init, entries, a);
    }
  }

  /** The trial balance is in agreement when the two columns differ by less than 0.01. */
  function TrialBalanced(totalDebit: real, totalCredit: real): (b: bool)
    ensures b <==> -0.01 < totalDebit - totalCredit < 0.01
  {
    Abs(totalDebit - totalCredit) < 0.01
  }

  /** `tbData`: the rows, built by the nested loops over entries and lines, and the column totals. */
  method BuildTrialBalance(accounts: seq<Account>, entries: seq<JournalEntry>)
    returns (rows: seq<Row>, totalDebit: real, totalCredit: real)
    ensures rows == Rows(accounts, entries)
    ensures totalDebit == TotalDebit(accounts, entries) && totalCredit == TotalCredit(accounts, entries)
  {
    rows, totalDebit, totalCredit := [], 0.0, 0.0;
    var i := 0;
    while i < |accounts|
      invariant 0 <= i <= |accounts|
      invariant rows == Rows(accounts[..i], entries)
      invariant totalDebit == TotalDebit(accounts[..i], entries) && totalCredit == TotalCredit(accounts[..i], entries)
    {
      var balance, hasEntries := FoldBalance(entries, accounts[i].id);
      var row := RowFor(accounts[i], balance, hasEntries);
      totalDebit := totalDebit + row.debit;
      totalCredit := totalCredit + row.credit;
      if Shown(row) {
        rows := rows + [row];
      }
      assert accounts[..i + 1][..i] == accounts[..i];
      i := i + 1;
    }
    assert accounts[..i] == accounts;
  }
}
