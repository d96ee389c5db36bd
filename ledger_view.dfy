/**
 * The ledger view: for every account, one row per journal entry that
 * touches it, with "To"/"By" particulars naming the accounts on the
 * other side, sorted by date, with debit and credit totals.
 */
module LedgerView {
  import opened Model
  import opened Journal
  import opened JsText
  import opened Sorting

  datatype LedgerRow = LedgerRow(entryId: string, date: int, particulars: string, debit: Option<real>, credit: Option<real>)

  datatype Ledger = Ledger(account: Account, rows: seq<LedgerRow>, balance: real, totalDebit: real, totalCredit: real)

  /** The first line of the entry that refers to the account. */
  function FirstLineFor(lines: seq<JournalLine>, id: string): (r: Option<JournalLine>)
    ensures r.None? <==> forall j :: 0 <= j < |lines| ==> lines[j].accountId != id
    ensures r.Some? ==> exists k :: (0 <= k < |lines| && lines[k] == r.value && r.value.accountId == id
      && forall j :: 0 <= j < k ==> lines[j].accountId != id)
  {
    if lines == [] then None
    else if lines[0].accountId == id then Some(lines[0])
    else
      var r := FirstLineFor(lines[1..], id);
      if r.Some? then
        var k :| 0 <= k < |lines[1..]| && lines[1..][k] == r.value && r.value.accountId == id
          && forall j :: 0 <= j < k ==> lines[1..][j].accountId != id;
        assert lines[k + 1] == r.value;
        r
      else r
  }

  /** The lines on the other side from `side`. */
  function Opposite(lines: seq<JournalLine>, side: Side): (r: seq<JournalLine>)
    ensures |r| <= |lines|
    ensures forall j :: 0 <= j < |r| ==> r[j].side != side
  {
    if lines == [] then []
    else (if lines[0].side != side then [lines[0]] else []) + Opposite(lines[1..], side)
  }

  function Names(lines: seq<JournalLine>): (r: seq<string>)
    ensures |r| == |lines| && forall j :: 0 <= j < |lines| ==> r[j] == lines[j].accountName
  {
    if lines == [] then [] else [lines[0].accountName] + Names(lines[1..])
  }

  function SidePrefix(side: Side): string {
    if side == Debit then "To " else "By "
  }

  /** The particulars of the row for `line`, drawn from the other lines of its entry. */
  function Particulars(line: JournalLine, lines: seq<JournalLine>): string {
    var opposite := Opposite(lines, line.side);
    var prefix := SidePrefix(line.side);
    if |opposite| == 1 then prefix + opposite[0].accountName
    else if |opposite| > 1 then prefix + Join(Names(opposite), " & ")
    else prefix + "Self (Opening/Adj)"
  }

  /**
   * Whatever the number of lines on the other side, the particulars are
   * the side's prefix followed by their names joined with " & ", or by
   * "Self (Opening/Adj)" when there are none.
   */
  lemma ParticularsShape(line: JournalLine, lines: seq<JournalLine>)
    ensures var opposite := Opposite(lines, line.side);
      Particulars(line, lines) == SidePrefix(line.side) + (if opposite == [] then "Self (Opening/Adj)" else Join(Names(opposite), " & "))
    ensures Particulars(line, lines)[..3] == (if line.side == Debit then "To " else "By ")
  {
  }

  /** The row the entry contributes to the ledger of `id`, if any. */
  function RowFor(e: JournalEntry, id: string): (r: Option<LedgerRow>)
    ensures r.None? <==> !LinesTouch(e.lines, id)
  {
    match FirstLineFor(e.lines, id)
    case None => None
    case Some(line) =>
      Some(LedgerRow(e.id, e.date, Particulars(line, e.lines),
        if line.side == Debit then Some(line.amount) else None,
        if line.side == Credit then Some(line.amount) else None))
  }

  /** The `flatMap` over the entries, before sorting. */
  function EntryRows(entries: seq<JournalEntry>, id: string): (r: seq<LedgerRow>)
    ensures |r| <= |entries|
  {
    if entries == [] then []
    else
      var e := entries[|entries| - 1];
      EntryRows(entries[..|entries| - 1], id) + (match RowFor(e, id) case None => [] case Some(row) => [row])
  }

  function RowDate(r: LedgerRow): int { r.date }

  function DebitOf(r: LedgerRow): real {
    match r.debit case None => 0.0 case Some(x) => x
  }

  function CreditOf(r: LedgerRow): real {
    match r.credit case None => 0.0 case Some(x) => x
  }

  /** The ledger of one account. */
  function LedgerOf(a: Account, entries: seq<JournalEntry>): Ledger {
    var rows := SortBy(EntryRows(entries, a.id), RowDate);
    var totalDebit := SumBy(rows, DebitOf);
    var totalCredit := SumBy(rows, CreditOf);
    Ledger(a, rows, totalDebit - totalCredit, totalDebit, totalCredit)
  }

  /**
   * A ledger's rows are the entries' rows in ascending date order (an
   * ordering of the same rows), and its totals and balance are those of
   * the unsorted rows.
   */
  lemma LedgerFacts(a: Account, entries: seq<JournalEntry>)
    ensures var l := LedgerOf(a, entries);
      SortedBy(l.rows, RowDate) && multiset(l.rows) == multiset(EntryRows(entries, a.id))
      && l.totalDebit == SumBy(EntryRows(entries, a.id), DebitOf)
      && l.totalCredit == SumBy(EntryRows(entries, a.id), CreditOf)
      && l.balance == l.totalDebit - l.totalCredit
  {
    SortByFacts(EntryRows(entries, a.id), RowDate);
    SumBySort(EntryRows(entries, a.id), RowDate, DebitOf);
    SumBySort(EntryRows(entries, a.id), RowDate, CreditOf);
  }

  /** The account has at most one line in the entry. */
  predicate SingleLine(lines: seq<JournalLine>, id: string) {
    forall j, k :: 0 <= j < k < |lines| && lines[j].accountId == id ==> lines[k].accountId != id
  }

  /** When the account has exactly one line, at `k`, the entry's effect on it is that line. */
  lemma {:induction false} SingleLineBalance(lines: seq<JournalLine>, id: string, k: nat)
    requires k < |lines| && lines[k].accountId == id && SingleLine(lines, id)
    ensures LinesBalance(lines, id) == Signed(lines[k])
    decreases |lines|
  {
    var init := lines[..|lines| - 1];
    if k == |lines| - 1 {
      assert forall j :: 0 <= j < |init| ==> init[j].accountId != id by {
        forall j | 0 <= j < |init| ensures init[j].accountId != id {
          assert lines[j] == init[j];
        }
      }
      UntouchedLinesZero(init, id);
    } else {
      assert init[k] == lines[k];
      assert SingleLine(init, id) by {
        forall j, m | 0 <= j < m < |init| && init[j].accountId == id ensures init[m].accountId != id {
          assert lines[j] == init[j] && lines[m] == init[m];
        }
      }
      SingleLineBalance(init, id, k);
    }
  }

  /** What one row adds to the balance. */
  lemma RowBalance(e: JournalEntry, id: string)
    requires SingleLine(e.lines, id)
    ensures LinesBalance(e.lines, id) == match RowFor(e, id) case None => 0.0 case Some(row) => DebitOf(row) - CreditOf(row)
  {
    match FirstLineFor(e.lines, id)
    case None =>
      UntouchedLinesZero(e.lines, id);
    case Some(line) =>
      var k :| 0 <= k < |e.lines| && e.lines[k] == line && line.accountId == id
        && forall j :: 0 <= j < k ==> e.lines[j].accountId != id;
      SingleLineBalance(e.lines, id, k);
  }

  /**
   * When no entry has two lines for the account, the ledger's balance is
   * the account balance of the journal.
   */
  lemma {:induction false} LedgerBalanceIsAccountBalance(a: Account, entries: seq<JournalEntry>)
    requires forall i :: 0 <= i < |entries| ==> SingleLine(entries[i].lines, a.id)
    ensures LedgerOf(a, entries).balance == Balance(entries, a.id)
  {
    LedgerFacts(a, entries);
    EntryRowsBalance(entries, a.id);
  }

  lemma {:induction false} EntryRowsBalance(entries: seq<JournalEntry>, id: string)
    requires forall i :: 0 <= i < |entries| ==> SingleLine(entries[i].lines, id)
    ensures SumBy(EntryRows(entries, id), DebitOf) - SumBy(EntryRows(entries, id), CreditOf) == Balance(entries, id)
    decreases |entries|
  {
    if entries != [] {
      var init, e := entries[..|entries| - 1], entries[|entries| - 1];
      EntryRowsBalance(init, id);
      RowBalance(e, id);
      var extra := match RowFor(e, id) case None => [] case Some(row) => [row];
      SumByAppend(EntryRows(init, id), extra, DebitOf);
      SumByAppend(EntryRows(init, id), extra, CreditOf);
    }
  }

  /**
   * A second line for the same account in one entry is not shown: an
   * entry debiting the account twice puts only the first amount in its
   * ledger, while the journal balance counts both.
   */
  lemma SecondLineNotShown()
    ensures var a := Account("a", "1001", "Cash A/c", Asset, CurrentAsset, None);
      var e := JournalEntry("e", None, 0, "", [JournalLine("1", Debit, "a", "Cash A/c", 5.0),
        JournalLine("2", Debit, "a", "Cash A/c", 7.0), JournalLine("3", Credit, "b", "Capital A/c", 12.0)], false);
      LedgerOf(a, [e]).balance == 5.0 && Balance([e], "a") == 12.0
  {
    var l1, l2, l3 := JournalLine("1", Debit, "a", "Cash A/c", 5.0), JournalLine("2", Debit, "a", "Cash A/c", 7.0),
      JournalLine("3", Credit, "b", "Capital A/c", 12.0);
    var e := JournalEntry("e", None, 0, "", [l1, l2, l3], false);
    OnlyFirstLineShown(e, l1);
    TwoDebitsCounted(e, l1, l2, l3);
  }

  lemma OnlyFirstLineShown(e: JournalEntry, l1: JournalLine)
    requires |e.lines| > 0 && e.lines[0] == l1 && l1.accountId == "a" && l1.side == Debit
    ensures LedgerOf(Account("a", "1001", "Cash A/c", Asset, CurrentAsset, None), [e]).balance == l1.amount
  {
    var rows := EntryRows([e], "a");
    assert FirstLineFor(e.lines, "a") == Some(l1);
    assert [e][..0] == [];
    var row := RowFor(e, "a").value;
    assert rows == [row];
    assert SortBy(rows, RowDate) == InsertBy([], row, RowDate) == rows;
    assert rows[..0] == [];
    assert DebitOf(row) == l1.amount && CreditOf(row) == 0.0;
    assert SumBy(rows, DebitOf) == l1.amount && SumBy(rows, CreditOf) == 0.0;
  }

  lemma TwoDebitsCounted(e: JournalEntry, l1: JournalLine, l2: JournalLine, l3: JournalLine)
    requires e.lines == [l1, l2, l3] && l1.accountId == "a" && l2.accountId == "a" && l3.accountId != "a"
    requires l1.side == Debit && l2.side == Debit
    ensures Balance([e], "a") == l1.amount + l2.amount
  {
    assert e.lines[..2] == [l1, l2];
    assert [l1, l2][..1] == [l1];
    assert [l1][..0] == [];
    assert LinesBalance([l1], "a") == l1.amount;
    assert LinesBalance([l1, l2], "a") == l1.amount + l2.amount;
    assert [e][..0] == [];
  }

  /** A ledger is shown when it has rows, and the cash and bank ledgers always. */
  predicate ShownLedger(l: Ledger) {
    |l.rows| > 0 || l.account.code == "1001" || l.account.code == "2001"
  }

  /** `ledgers`: the shown ledgers, in account order. */
  function Ledgers(accounts: seq<Account>, entries: seq<JournalEntry>): (r: seq<Ledger>)
    ensures |r| <= |accounts|
    ensures forall i :: 0 <= i < |r| ==> ShownLedger(r[i])
  {
    if accounts == [] then []
    else
      var l := LedgerOf(accounts[0], entries);
      (if ShownLedger(l) then [l] else []) + Ledgers(accounts[1..], entries)
  }

  /** Every account touched by some entry has its ledger shown. */
  lemma {:induction false} TouchedLedgerShown(accounts: seq<Account>, entries: seq<JournalEntry>, a: Account, i: nat)
    requires a in accounts && i < |entries| && LinesTouch(entries[i].lines, a.id)
    ensures LedgerOf(a, entries) in Ledgers(accounts, entries)
  {
    EntryRowsNonEmpty(entries, a.id, i);
    SortByFacts(EntryRows(entries, a.id), RowDate);
    if accounts[0] != a {
      TouchedLedgerShown(accounts[1..], entries, a, i);
    }
  }

  lemma {:induction false} EntryRowsNonEmpty(entries: seq<JournalEntry>, id: string, i: nat)
    requires i < |entries| && LinesTouch(entries[i].lines, id)
    ensures |EntryRows(entries, id)| > 0
    decreases |entries|
  {
    if i < |entries| - 1 {
      var init := entries[..|entries| - 1];
      assert init[i] == entries[i];
      EntryRowsNonEmpty(init, id, i);
    }
  }

  /** `filteredLedgers`: the shown ledgers whose account matches the search. */
  function FilteredLedgers(ledgers: seq<Ledger>, term: string): (r: seq<Ledger>)
    ensures |r| <= |ledgers|
    ensures forall i :: 0 <= i < |r| ==> r[i] in ledgers && MatchesSearch(r[i].account.name, r[i].account.code, term)
    ensures forall l :: l in ledgers && MatchesSearch(l.account.name, l.account.code, term) ==> l in r
  {
    if ledgers == [] then []
    else
      (if MatchesSearch(ledgers[0].account.name, ledgers[0].account.code, term) then [ledgers[0]] else [])
        + FilteredLedgers(ledgers[1..], term)
  }

  /** An empty search keeps every ledger. */
  lemma EmptySearchKeepsAll(ledgers: seq<Ledger>)
    ensures FilteredLedgers(ledgers, "") == ledgers
  {
    if ledgers != [] {
      EmptySearchMatches(ledgers[0].account.name, ledgers[0].account.code);
      EmptySearchKeepsAll(ledgers[1..]);
    }
  }
}
