/**
 * The journal store's arithmetic: side totals of an entry, the 0.01
 * tolerance that decides whether an entry balances, and the signed
 * balance of an account as a fold over every line of every entry
 * (debit +amount, credit -amount).
 */
module Journal {
  import opened Model

  /** The tolerance `addEntry` allows between the two sides. */
  const Tolerance: real := 0.01

  function Signed(l: JournalLine): real {
    if l.side == Debit then l.amount else -l.amount
  }

  /** What one line contributes to the balance of account `id`. */
  function LineDelta(l: JournalLine, id: string): real {
    if l.accountId == id then Signed(l) else 0.0
  }

  function LinesBalance(lines: seq<JournalLine>, id: string): real {
    if lines == [] then 0.0
    else LinesBalance(lines[..|lines| - 1], id) + LineDelta(lines[|lines| - 1], id)
  }

  /** `getAccountBalance`: positive is a net debit, negative a net credit. */
  function Balance(entries: seq<JournalEntry>, id: string): real {
    if entries == [] then 0.0
    else Balance(entries[..|entries| - 1], id) + LinesBalance(entries[|entries| - 1].lines, id)
  }

  /** The amount a line carries on `side`, zero for the other side. */
  function OnSide(l: JournalLine, side: Side): real {
    if l.side == side then l.amount else 0.0
  }

  function DebitTotal(lines: seq<JournalLine>): real {
    if lines == [] then 0.0 else DebitTotal(lines[..|lines| - 1]) + OnSide(lines[|lines| - 1], Debit)
  }

  function CreditTotal(lines: seq<JournalLine>): real {
    if lines == [] then 0.0 else CreditTotal(lines[..|lines| - 1]) + OnSide(lines[|lines| - 1], Credit)
  }

  /** The acceptance rule of `addEntry`. */
  predicate Balanced(lines: seq<JournalLine>) {
    Abs(DebitTotal(lines) - CreditTotal(lines)) <= Tolerance
  }

  /** Keeps a non-empty transaction id, otherwise stamps the generated one. */
  function WithTransactionId(e: JournalEntry, generated: string): (r: JournalEntry)
    ensures r.transactionId.Some?
    ensures e.transactionId.Some? && e.transactionId.value != "" ==> r == e
    ensures r == e.(transactionId := r.transactionId)
  {
    if e.transactionId.Some? && e.transactionId.value != "" then e
    else e.(transactionId := Some(generated))
  }

  /** Some line of some entry refers to account `id`. */
  predicate HasLine(entries: seq<JournalEntry>, id: string) {
    exists i, k :: 0 <= i < |entries| && 0 <= k < |entries[i].lines| && entries[i].lines[k].accountId == id
  }

  /** Some line of `lines` refers to account `id`. */
  predicate LinesTouch(lines: seq<JournalLine>, id: string) {
    exists j :: 0 <= j < |lines| && lines[j].accountId == id
  }

  /** The inner `forEach`: one entry's contribution and whether it touches the account. */
  method FoldLines(lines: seq<JournalLine>, id: string) returns (delta: real, touched: bool)
    ensures delta == LinesBalance(lines, id)
    ensures touched <==> LinesTouch(lines, id)
  {
    delta, touched := 0.0, false;
    var k := 0;
    while k < |lines|
      invariant 0 <= k <= |lines|
      invariant delta == LinesBalance(lines[..k], id)
      invariant touched <==> LinesTouch(lines[..k], id)
    {
      if lines[k].accountId == id {
        touched := true;
        if lines[k].side == Debit {
          delta := delta + lines[k].amount;
        } else {
          delta := delta - lines[k].amount;
        }
      }
      assert lines[..k + 1][..k] == lines[..k];
      assert LinesTouch(lines[..k + 1], id) <==> LinesTouch(lines[..k], id) || lines[k].accountId == id by {
        if LinesTouch(lines[..k + 1], id) {
          var j :| 0 <= j < k + 1 && lines[..k + 1][j].accountId == id;
          if j < k {
            assert lines[..k][j].accountId == id;
          }
        }
        if LinesTouch(lines[..k], id) {
          var j :| 0 <= j < k && lines[..k][j].accountId == id;
          assert lines[..k + 1][j].accountId == id;
        }
        if lines[k].accountId == id {
          assert lines[..k + 1][k].accountId == id;
        }
      }
      k := k + 1;
    }
    assert lines[..k] == lines;
  }

  /** An account is touched by a longer history exactly when by the shorter one or the new entry. */
  lemma HasLineSnoc(entries: seq<JournalEntry>, i: int, id: string)
    requires 0 <= i < |entries|
    ensures HasLine(entries[..i + 1], id) <==> HasLine(entries[..i], id) || LinesTouch(entries[i].lines, id)
  {
    var pre, pre1 := entries[..i], entries[..i + 1];
    if LinesTouch(entries[i].lines, id) {
      var j :| 0 <= j < |entries[i].lines| && entries[i].lines[j].accountId == id;
      assert pre1[i].lines[j].accountId == id;
    }
    if HasLine(pre1, id) {
      var a, b :| 0 <= a < i + 1 && 0 <= b < |pre1[a].lines| && pre1[a].lines[b].accountId == id;
      if a < i {
        assert pre[a].lines[b].accountId == id;
      }
    }
    if HasLine(pre, id) {
      var a, b :| 0 <= a < i && 0 <= b < |pre[a].lines| && pre[a].lines[b].accountId == id;
      assert pre1[a].lines[b].accountId == id;
    }
  }

  /**
   * The nested `forEach` over entries and lines that the report views use
   * to accumulate an account's balance and note whether it has any line.
   */
  method FoldBalance(entries: seq<JournalEntry>, id: string) returns (bal: real, touched: bool)
    ensures bal == Balance(entries, id)
    ensures touched <==> HasLine(entries, id)
  {
    bal, touched := 0.0, false;
    var i := 0;
    while i < |entries|
      invariant 0 <= i <= |entries|
      invariant bal == Balance(entries[..i], id)
      invariant touched <==> HasLine(entries[..i], id)
    {
      var delta, t := FoldLines(entries[i].lines, id);
      bal := bal + delta;
      touched := touched || t;
      assert entries[..i + 1][..i] == entries[..i];
      HasLineSnoc(entries, i, id);
      i := i + 1;
    }
    assert entries[..i] == entries;
  }

  /** An account no line refers to has balance zero. */
  lemma {:induction false} UntouchedBalanceZero(entries: seq<JournalEntry>, id: string)
    requires !HasLine(entries, id)
    ensures Balance(entries, id) == 0.0
    decreases |entries|
  {
    if entries != [] {
      var n := |entries| - 1;
      assert forall a, b :: 0 <= a < n && 0 <= b < |entries[..n][a].lines| ==> entries[..n][a].lines[b] == entries[a].lines[b];
      UntouchedBalanceZero(entries[..n], id);
      UntouchedLinesZero(entries[n].lines, id);
    }
  }

  lemma {:induction false} UntouchedLinesZero(lines: seq<JournalLine>, id: string)
    requires forall j :: 0 <= j < |lines| ==> lines[j].accountId != id
    ensures LinesBalance(lines, id) == 0.0
    decreases |lines|
  {
    if lines != [] {
      UntouchedLinesZero(lines[..|lines| - 1], id);
    }
  }

  /** The balance of a concatenated history is the sum of the balances. */
  lemma {:induction false} BalanceAppend(a: seq<JournalEntry>, b: seq<JournalEntry>, id: string)
    ensures Balance(a + b, id) == Balance(a, id) + Balance(b, id)
    decreases |b|
  {
    if b == [] {
      assert a + b == a;
    } else {
      assert (a + b)[..|a + b| - 1] == a + b[..|b| - 1];
      BalanceAppend(a, b[..|b| - 1], id);
    }
  }

  /** Prepending an entry (what `addEntry` does) adds that entry's lines. */
  lemma PrependEntry(e: JournalEntry, entries: seq<JournalEntry>, id: string)
    ensures Balance([e] + entries, id) == LinesBalance(e.lines, id) + Balance(entries, id)
  {
    BalanceAppend([e], entries, id);
    assert [e][..0] == [];
  }

  /** Stamping a transaction id never changes any balance. */
  lemma StampKeepsLines(e: JournalEntry, generated: string, id: string)
    ensures LinesBalance(WithTransactionId(e, generated).lines, id) == LinesBalance(e.lines, id)
  {
  }

  /** Over all accounts at once, an entry's lines sum to debits minus credits. */
  function SignedTotal(lines: seq<JournalLine>): real {
    if lines == [] then 0.0 else SignedTotal(lines[..|lines| - 1]) + Signed(lines[|lines| - 1])
  }

  lemma {:induction false} SignedTotalIsDifference(lines: seq<JournalLine>)
    ensures SignedTotal(lines) == DebitTotal(lines) - CreditTotal(lines)
    decreases |lines|
  {
    if lines != [] {
      SignedTotalIsDifference(lines[..|lines| - 1]);
    }
  }

  /** Debits minus credits over the whole journal. */
  function Imbalance(entries: seq<JournalEntry>): real {
    if entries == [] then 0.0
    else Imbalance(entries[..|entries| - 1]) + SignedTotal(entries[|entries| - 1].lines)
  }

  /**
   * The global balance invariant: if every stored entry passed the
   * `addEntry` check, total debits and total credits of the journal differ
   * by at most the tolerance once per entry (exactly zero when every entry
   * balances exactly).
   */
  lemma {:induction false} JournalImbalanceBound(entries: seq<JournalEntry>)
    requires forall e :: e in entries ==> Balanced(e.lines)
    ensures Abs(Imbalance(entries)) <= Tolerance * |entries| as real
    ensures (forall e :: e in entries ==> DebitTotal(e.lines) == CreditTotal(e.lines)) ==> Imbalance(entries) == 0.0
    decreases |entries|
  {
    if entries != [] {
      var init := entries[..|entries| - 1];
      var last := entries[|entries| - 1];
      assert forall e :: e in init ==> e in entries;
      JournalImbalanceBound(init);
      SignedTotalIsDifference(last.lines);
      assert last in entries;
    }
  }
}
