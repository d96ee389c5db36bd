/**
 * The perpetual stock register of the inventory view: the stock
 * movements are sorted by date (in place), and replayed item by item
 * against a buffer of receipt batches. An issue consumes batches from
 * the NEWEST backwards (last in, first out), although the engine costs
 * the same issue first in, first out; the register reproduces that.
 */
module InventoryRegister {
  import opened Model
  import opened Sorting
  import opened Stock

  datatype Batch = Batch(qty: real, rate: real, refDocId: Option<string>)

  datatype Summary = Summary(qty: real, value: real, batches: seq<Batch>)

  const EmptySummary: Summary := Summary(0.0, 0.0, [])

  /** A register line: the movement (an issue re-costed by the register) and the running balance after it. */
  datatype RegisterRow = RegisterRow(txn: StockTransaction, balanceQty: real, balanceAmt: real, balanceRate: real)

  function BatchCost(taken: real, rate: real): real { taken * rate }

  datatype Issued = Issued(batches: seq<Batch>, cost: real)

  /**
   * Issuing `needed` units from the batches, newest first: each batch
   * gives up to what is still needed, and a batch left at zero is
   * removed.
   */
  function LifoIssue(bs: seq<Batch>, needed: real): (r: Issued)
    ensures |r.batches| <= |bs|
  {
    if bs == [] || needed <= 0.0 then Issued(bs, 0.0)
    else
      var last := bs[|bs| - 1];
      var taken := Min(last.qty, needed);
      var rest := LifoIssue(bs[..|bs| - 1], needed - taken);
      var left := last.qty - taken;
      Issued(rest.batches + (if left == 0.0 then [] else [last.(qty := left)]), rest.cost + BatchCost(taken, last.rate))
  }

  /** The backward loop over the batch buffer, splicing out emptied batches. */
  method IssueFromBatches(bs: seq<Batch>, quantity: real) returns (r: Issued)
    ensures r == LifoIssue(bs, quantity)
  {
    var batches := bs;
    var needed := quantity;
    var cost := 0.0;
    var i := |bs|;
    ghost var pending, tail: seq<Batch> := bs, [];
    assert LifoIssue(bs, quantity).batches + [] == LifoIssue(bs, quantity).batches;
    while i > 0
      invariant i == |pending| && batches == pending + tail
      invariant LifoIssue(bs, quantity) == Resume(pending, needed, tail, cost)
    {
      var batch := batches[i - 1];
      if needed <= 0.0 {
        break;
      }
      assert batch == pending[i - 1];
      var taken := Min(batch.qty, needed);
      var left := batch.qty - taken;
      ghost var kept := if left == 0.0 then [] else [batch.(qty := left)];
      ResumeStep(pending, needed, tail, cost);
      assert pending == pending[..i - 1] + [batch];
      SpliceOrUpdate(pending[..i - 1], batch, tail, left);
      cost := cost + BatchCost(taken, batch.rate);
      needed := needed - taken;
      if left == 0.0 {
        batches := batches[..i - 1] + batches[i..];
      } else {
        batches := batches[i - 1 := batch.(qty := left)];
      }
      pending, tail := pending[..i - 1], kept + tail;
      i := i - 1;
    }
    ResumeDone(pending, needed, tail, cost);
    r := Issued(batches, cost);
  }

  /** Removing or updating the batch at the boundary between the unvisited batches and the settled tail. */
  lemma SpliceOrUpdate(pre: seq<Batch>, batch: Batch, tail: seq<Batch>, left: real)
    ensures var buf := pre + [batch] + tail;
      (left == 0.0 ==> buf[..|pre|] + buf[|pre| + 1..] == pre + ([] + tail))
      && (left != 0.0 ==> buf[|pre| := batch.(qty := left)] == pre + ([batch.(qty := left)] + tail))
  {
    var buf := pre + [batch] + tail;
    assert buf[..|pre|] == pre;
    assert buf[|pre| + 1..] == tail;
  }

  /** What the issue yields once the batches `p` are still to be visited, `tail` is settled and `cost` found. */
  function Resume(p: seq<Batch>, needed: real, tail: seq<Batch>, cost: real): Issued {
    var rest := LifoIssue(p, needed);
    Issued(rest.batches + tail, rest.cost + cost)
  }

  lemma ResumeStep(p: seq<Batch>, needed: real, tail: seq<Batch>, cost: real)
    requires p != [] && needed > 0.0
    ensures var last := p[|p| - 1];
      var taken := Min(last.qty, needed);
      var kept := if last.qty - taken == 0.0 then [] else [last.(qty := last.qty - taken)];
      Resume(p, needed, tail, cost) == Resume(p[..|p| - 1], needed - taken, kept + tail, cost + BatchCost(taken, last.rate))
  {
    var last := p[|p| - 1];
    var taken := Min(last.qty, needed);
    var kept := if last.qty - taken == 0.0 then [] else [last.(qty := last.qty - taken)];
    var rest := LifoIssue(p[..|p| - 1], needed - taken);
    assert LifoIssue(p, needed) == Issued(rest.batches + kept, rest.cost + BatchCost(taken, last.rate));
    assert rest.batches + kept + tail == rest.batches + (kept + tail);
  }

  lemma ResumeDone(p: seq<Batch>, needed: real, tail: seq<Batch>, cost: real)
    requires needed <= 0.0 || p == []
    ensures Resume(p, needed, tail, cost) == Issued(p + tail, cost)
  {
  }

  function TotalQty(bs: seq<Batch>): real {
    if bs == [] then 0.0 else TotalQty(bs[..|bs| - 1]) + bs[|bs| - 1].qty
  }

  predicate AllPositive(bs: seq<Batch>) {
    forall j :: 0 <= j < |bs| ==> bs[j].qty > 0.0
  }

  /**
   * From positive batches, an issue takes exactly what is needed, or
   * everything there is when that is less; the batches left all stay
   * positive.
   */
  lemma {:induction false} LifoIssueTakes(bs: seq<Batch>, needed: real)
    requires AllPositive(bs) && needed >= 0.0
    ensures var r := LifoIssue(bs, needed);
      AllPositive(r.batches) && TotalQty(r.batches) == TotalQty(bs) - Min(needed, TotalQty(bs))
    decreases |bs|
  {
    if bs != [] && needed > 0.0 {
      var init, last := bs[..|bs| - 1], bs[|bs| - 1];
      var taken := Min(last.qty, needed);
      assert AllPositive(init) by {
        forall j | 0 <= j < |init| ensures init[j].qty > 0.0 {
          assert init[j] == bs[j];
        }
      }
      LifoIssueTakes(init, needed - taken);
      PositiveTotal(init);
      var rest := LifoIssue(init, needed - taken);
      var left := last.qty - taken;
      var kept := if left == 0.0 then [] else [last.(qty := left)];
      TotalQtyAppend(rest.batches, kept);
      assert TotalQty(kept) == left by {
        if kept != [] {
          assert kept[..0] == [];
        }
      }
      assert AllPositive(rest.batches + kept) by {
        forall j | 0 <= j < |rest.batches + kept| ensures (rest.batches + kept)[j].qty > 0.0 {
          if j >= |rest.batches| {
            assert (rest.batches + kept)[j] == kept[j - |rest.batches|];
          } else {
            assert (rest.batches + kept)[j] == rest.batches[j];
          }
        }
      }
    } else if bs != [] {
      PositiveTotal(bs);
    }
  }

  lemma {:induction false} PositiveTotal(bs: seq<Batch>)
    requires AllPositive(bs)
    ensures TotalQty(bs) >= 0.0
    decreases |bs|
  {
    if bs != [] {
      var init := bs[..|bs| - 1];
      assert AllPositive(init) by {
        forall j | 0 <= j < |init| ensures init[j].qty > 0.0 {
          assert init[j] == bs[j];
        }
      }
      PositiveTotal(init);
    }
  }

  lemma {:induction false} TotalQtyAppend(a: seq<Batch>, b: seq<Batch>)
    ensures TotalQty(a + b) == TotalQty(a) + TotalQty(b)
    decreases |b|
  {
    if b == [] {
      assert a + b == a;
    } else {
      assert (a + b)[..|a + b| - 1] == a + b[..|b| - 1];
      TotalQtyAppend(a, b[..|b| - 1]);
    }
  }

  datatype Applied = Applied(summary: Summary, row: RegisterRow)

  function BalanceRate(qty: real, value: real): real {
    if qty > 0.0 then value / qty else 0.0
  }

  /** One movement replayed against its item's summary. */
  function ApplyTxn(s: Summary, t: StockTransaction): (a: Applied)
    ensures t.kind == StockReceipt ==>
      a.summary.qty == s.qty + t.quantity && a.summary.value == s.value + t.amount
      && a.summary.batches == s.batches + [Batch(t.quantity, t.rate, t.refDocId)] && a.row.txn == t
    ensures t.kind == StockIssue ==>
      a.summary.qty == s.qty - t.quantity && a.summary.value == s.value - a.row.txn.amount
      && a.row.txn == t.(amount := a.row.txn.amount, rate := a.row.txn.rate)
      && a.row.txn.rate == (if t.quantity > 0.0 then a.row.txn.amount / t.quantity else 0.0)
    ensures a.row.balanceQty == a.summary.qty && a.row.balanceAmt == a.summary.value
    ensures a.row.balanceRate == (if a.summary.qty > 0.0 then a.summary.value / a.summary.qty else 0.0)
  {
    if t.kind == StockReceipt then
      var s' := Summary(s.qty + t.quantity, s.value + t.amount, s.batches + [Batch(t.quantity, t.rate, t.refDocId)]);
      Applied(s', RegisterRow(t, s'.qty, s'.value, BalanceRate(s'.qty, s'.value)))
    else
      var issued := LifoIssue(s.batches, t.quantity);
      var s' := Summary(s.qty - t.quantity, s.value - issued.cost, issued.batches);
      var txn := t.(amount := issued.cost, rate := if t.quantity > 0.0 then issued.cost / t.quantity else 0.0);
      Applied(s', RegisterRow(txn, s'.qty, s'.value, BalanceRate(s'.qty, s'.value)))
  }

  /** An issue is re-costed at what the batches it consumed cost. */
  lemma IssueCostFromBatches(s: Summary, t: StockTransaction)
    requires t.kind == StockIssue
    ensures ApplyTxn(s, t).row.txn.amount == LifoIssue(s.batches, t.quantity).cost
    ensures ApplyTxn(s, t).summary.batches == LifoIssue(s.batches, t.quantity).batches
  {
  }

  datatype Register = Register(summaries: map<string, Summary>, rows: seq<RegisterRow>)

  function SummaryOf(m: map<string, Summary>, id: string): Summary {
    if id in m then m[id] else EmptySummary
  }

  /** The movements replayed in the order given. */
  function Replay(ts: seq<StockTransaction>): (r: Register)
    ensures |r.rows| == |ts|
  {
    if ts == [] then Register(map[], [])
    else
      var prev := Replay(ts[..|ts| - 1]);
      var t := ts[|ts| - 1];
      var a := ApplyTxn(SummaryOf(prev.summaries, t.itemId), t);
      Register(prev.summaries[t.itemId := a.summary], prev.rows + [a.row])
  }

  /** Every item's summarised quantity is its stock balance: receipts less the full issued quantities. */
  lemma {:induction false} SummaryQtyIsStockBalance(ts: seq<StockTransaction>, id: string)
    ensures SummaryOf(Replay(ts).summaries, id).qty == StockBalance(ts, id)
    decreases |ts|
  {
    if ts != [] {
      SummaryQtyIsStockBalance(ts[..|ts| - 1], id);
    }
  }

  predicate ReceiptsPositive(ts: seq<StockTransaction>) {
    forall j :: 0 <= j < |ts| && ts[j].kind == StockReceipt ==> ts[j].quantity > 0.0
  }

  predicate IssuesNonNegative(ts: seq<StockTransaction>) {
    forall j :: 0 <= j < |ts| && ts[j].kind == StockIssue ==> ts[j].quantity >= 0.0
  }

  /** With positive receipts (and issues of no negative quantity), no batch of any item is ever empty or negative. */
  lemma {:induction false} BatchesStayPositive(ts: seq<StockTransaction>, id: string)
    requires ReceiptsPositive(ts) && IssuesNonNegative(ts)
    ensures AllPositive(SummaryOf(Replay(ts).summaries, id).batches)
    decreases |ts|
  {
    if ts != [] {
      var init, t := ts[..|ts| - 1], ts[|ts| - 1];
      assert ReceiptsPositive(init) && IssuesNonNegative(init) by {
        forall j | 0 <= j < |init| ensures init[j] == ts[j] { }
      }
      BatchesStayPositive(init, id);
      BatchesStayPositive(init, t.itemId);
      var s := SummaryOf(Replay(init).summaries, t.itemId);
      if t.kind == StockIssue {
        LifoIssueTakes(s.batches, t.quantity);
      }
    }
  }

  function Reversed<T>(s: seq<T>): (r: seq<T>)
    ensures |r| == |s| && forall i :: 0 <= i < |s| ==> r[i] == s[|s| - 1 - i]
  {
    if s == [] then [] else [s[|s| - 1]] + Reversed(s[..|s| - 1])
  }

  /** `processedData`: the register of the date-sorted movements, newest first, and the item summaries. */
  function ProcessedData(ts: seq<StockTransaction>): Register {
    var r := Replay(SortBy(ts, TxnDate));
    Register(r.summaries, Reversed(r.rows))
  }

  /** The movements are replayed in ascending date order, every one of them exactly once. */
  lemma ReplayOrder(ts: seq<StockTransaction>)
    ensures SortedBy(SortBy(ts, TxnDate), TxnDate) && multiset(SortBy(ts, TxnDate)) == multiset(ts)
    ensures |ProcessedData(ts).rows| == |ts|
  {
    SortByFacts(ts, TxnDate);
  }

  /** The item summaries do not depend on the order the store holds the movements in. */
  lemma SummaryQtyOrderFree(ts: seq<StockTransaction>, id: string)
    ensures SummaryOf(ProcessedData(ts).summaries, id).qty == StockBalance(ts, id)
  {
    SortByFacts(ts, TxnDate);
    SummaryQtyIsStockBalance(SortBy(ts, TxnDate), id);
    StockBalancePermutation(SortBy(ts, TxnDate), ts, id);
  }

  /** The sort: the store's array ends up holding its movements in ascending date order, ties kept in order. */
  method SortInPlace(a: array<StockTransaction>)
    modifies a
    ensures a[..] == SortBy(old(a[..]), TxnDate)
  {
    var sorted := SortBy(a[..], TxnDate);
    SortByFacts(a[..], TxnDate);
    var i := 0;
    while i < a.Length
      invariant 0 <= i <= a.Length == |sorted|
      invariant forall j :: 0 <= j < i ==> a[j] == sorted[j]
    {
      a[i] := sorted[i];
      i := i + 1;
    }
    assert a[..] == sorted;
  }

  /** One movement replayed: the issue branch runs the backward loop over the batches. */
  method ApplyStep(s: Summary, t: StockTransaction) returns (a: Applied)
    ensures a == ApplyTxn(s, t)
  {
    if t.kind == StockReceipt {
      var s' := Summary(s.qty + t.quantity, s.value + t.amount, s.batches + [Batch(t.quantity, t.rate, t.refDocId)]);
      a := Applied(s', RegisterRow(t, s'.qty, s'.value, BalanceRate(s'.qty, s'.value)));
    } else {
      var issued := IssueFromBatches(s.batches, t.quantity);
      var s' := Summary(s.qty - t.quantity, s.value - issued.cost, issued.batches);
      var rate := if t.quantity > 0.0 then issued.cost / t.quantity else 0.0;
      a := Applied(s', RegisterRow(t.(amount := issued.cost, rate := rate), s'.qty, s'.value, BalanceRate(s'.qty, s'.value)));
    }
  }

  /** The forEach over the sorted movements, updating the summaries dictionary and collecting the rows. */
  method ReplayMovements(ts: seq<StockTransaction>) returns (summaries: map<string, Summary>, results: seq<RegisterRow>)
    ensures Register(summaries, results) == Replay(ts)
  {
    summaries, results := map[], [];
    var k := 0;
    while k < |ts|
      invariant 0 <= k <= |ts|
      invariant Register(summaries, results) == Replay(ts[..k])
    {
      var t := ts[k];
      var a := ApplyStep(SummaryOf(summaries, t.itemId), t);
      summaries := summaries[t.itemId := a.summary];
      results := results + [a.row];
      assert ts[..k + 1][..k] == ts[..k];
      k := k + 1;
    }
    assert ts[..k] == ts;
  }

  /** `processedData` over the store's array, which the sort reorders in place. */
  method ProcessStockRegister(txns: array<StockTransaction>) returns (ledger: seq<RegisterRow>, summaries: map<string, Summary>)
    modifies txns
    ensures txns[..] == SortBy(old(txns[..]), TxnDate)
    ensures Register(summaries, ledger) == ProcessedData(old(txns[..]))
  {
    SortInPlace(txns);
    var results;
    summaries, results := ReplayMovements(txns[..]);
    ledger := Reversed(results);
  }

  /**
   * The register and the engine cost the same issue differently: after
   * receipts of 10 at 5 and 10 at 7, an issue of 15 costs 95 in the
   * register (10 at 7, then 5 at 5) where first in, first out gives 85.
   */
  lemma RegisterIsLastInFirstOut()
    ensures LifoIssue([Batch(10.0, 5.0, None), Batch(10.0, 7.0, None)], 15.0)
      == Issued([Batch(5.0, 5.0, None)], 95.0)
  {
    var b1, b2 := Batch(10.0, 5.0, None), Batch(10.0, 7.0, None);
    assert [b1, b2][..1] == [b1] && [b1][..0] == [];
    assert LifoIssue([b1], 5.0) == Issued([b1.(qty := 5.0)], 25.0);
  }
}
