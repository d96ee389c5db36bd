/**
 * The inventory valuation engine: the running stock balance of an item
 * and the FIFO cost of an issue, computed by walking the item's receipt
 * layers in date order past the units already issued.
 */
module Stock {
  import opened Model
  import Sorting

  /** What one transaction contributes to the stock of `itemId`. */
  function QtyDelta(t: StockTransaction, itemId: string): real {
    if t.itemId != itemId then 0.0
    else if t.kind == StockReceipt then t.quantity
    else -t.quantity
  }

  /** `getCurrentStockBalance`. */
  function StockBalance(txns: seq<StockTransaction>, itemId: string): real {
    if txns == [] then 0.0
    else StockBalance(txns[..|txns| - 1], itemId) + QtyDelta(txns[|txns| - 1], itemId)
  }

  /** The receipts of `itemId`, in store order. */
  function Receipts(txns: seq<StockTransaction>, itemId: string): seq<StockTransaction> {
    if txns == [] then []
    else
      var last := txns[|txns| - 1];
      Receipts(txns[..|txns| - 1], itemId)
        + (if last.itemId == itemId && last.kind == StockReceipt then [last] else [])
  }

  /** Every receipt listed is a receipt of `itemId` from the store. */
  lemma {:induction false} ReceiptsAreReceipts(txns: seq<StockTransaction>, itemId: string)
    ensures forall t :: t in Receipts(txns, itemId) ==> t in txns && t.itemId == itemId && t.kind == StockReceipt
    decreases |txns|
  {
    if txns != [] {
      ReceiptsAreReceipts(txns[..|txns| - 1], itemId);
      assert forall t :: t in txns[..|txns| - 1] ==> t in txns;
    }
  }

  /** Quantity issued so far for `itemId`. */
  function TotalIssued(txns: seq<StockTransaction>, itemId: string): real {
    if txns == [] then 0.0
    else
      var last := txns[|txns| - 1];
      TotalIssued(txns[..|txns| - 1], itemId)
        + (if last.itemId == itemId && last.kind == StockIssue then last.quantity else 0.0)
  }

  /** Quantity received so far for `itemId`. */
  function TotalReceived(txns: seq<StockTransaction>, itemId: string): real {
    if txns == [] then 0.0
    else
      var last := txns[|txns| - 1];
      TotalReceived(txns[..|txns| - 1], itemId)
        + (if last.itemId == itemId && last.kind == StockReceipt then last.quantity else 0.0)
  }

  /** The receipt layers in date order (a stable sort of the receipts). */
  function Layers(txns: seq<StockTransaction>, itemId: string): seq<StockTransaction> {
    Sorting.SortBy(Receipts(txns, itemId), TxnDate)
  }

  /** The stock balance is receipts minus issues. */
  lemma {:induction false} StockIsReceivedMinusIssued(txns: seq<StockTransaction>, itemId: string)
    ensures StockBalance(txns, itemId) == TotalReceived(txns, itemId) - TotalIssued(txns, itemId)
    decreases |txns|
  {
    if txns != [] {
      StockIsReceivedMinusIssued(txns[..|txns| - 1], itemId);
    }
  }

  lemma {:induction false} StockBalanceAppend(a: seq<StockTransaction>, b: seq<StockTransaction>, itemId: string)
    ensures StockBalance(a + b, itemId) == StockBalance(a, itemId) + StockBalance(b, itemId)
    decreases |b|
  {
    if b == [] {
      assert a + b == a;
    } else {
      assert (a + b)[..|a + b| - 1] == a + b[..|b| - 1];
      StockBalanceAppend(a, b[..|b| - 1], itemId);
    }
  }

  /** Taking one transaction out of the middle removes its contribution. */
  lemma StockBalanceRemove(b: seq<StockTransaction>, j: nat, itemId: string)
    requires j < |b|
    ensures StockBalance(b, itemId) == StockBalance(b[..j] + b[j + 1..], itemId) + QtyDelta(b[j], itemId)
  {
    assert b == (b[..j] + [b[j]]) + b[j + 1..];
    StockBalanceAppend(b[..j] + [b[j]], b[j + 1..], itemId);
    StockBalanceAppend(b[..j], b[j + 1..], itemId);
    assert (b[..j] + [b[j]])[..j] == b[..j];
  }

  /** Removing the same element from two permutations of each other leaves permutations. */
  lemma RemoveFromPermutation(a: seq<StockTransaction>, b: seq<StockTransaction>, j: nat)
    requires multiset(a) == multiset(b) && a != [] && j < |b| && b[j] == a[|a| - 1]
    ensures multiset(a[..|a| - 1]) == multiset(b[..j] + b[j + 1..])
  {
    assert a == a[..|a| - 1] + [a[|a| - 1]];
    assert b == b[..j] + [b[j]] + b[j + 1..];
    assert multiset(b) == multiset(b[..j] + b[j + 1..]) + multiset{b[j]};
    assert multiset(a) == multiset(a[..|a| - 1]) + multiset{a[|a| - 1]};
    assert multiset(a[..|a| - 1]) == multiset(a) - multiset{a[|a| - 1]};
    assert multiset(b[..j] + b[j + 1..]) == multiset(b) - multiset{b[j]};
  }

  /** The stock balance does not depend on the order of the transactions. */
  lemma {:induction false} StockBalancePermutation(a: seq<StockTransaction>, b: seq<StockTransaction>, itemId: string)
    requires multiset(a) == multiset(b)
    ensures StockBalance(a, itemId) == StockBalance(b, itemId)
    decreases |a|
  {
    if a == [] {
      assert |b| == |multiset(b)| == 0;
    } else {
      assert a[|a| - 1] in multiset(b);
      var j :| 0 <= j < |b| && b[j] == a[|a| - 1];
      RemoveFromPermutation(a, b, j);
      StockBalancePermutation(a[..|a| - 1], b[..j] + b[j + 1..], itemId);
      StockBalanceRemove(b, j, itemId);
    }
  }

  /** A running valuation: the cost so far and the quantity not yet valued. */
  datatype Valuation = Valuation(cost: real, unmet: real)

  /**
   * The FIFO walk of `calculateFIFOCost` over the layers `rs`: `skipped`
   * counts layer units passed so far, `cost` and `remaining` are the
   * running cost and the quantity still to value. Returns the final
   * (cost, remaining).
   */
  function Walk(rs: seq<StockTransaction>, issued: real, skipped: real, cost: real, remaining: real): Valuation
    decreases |rs|
  {
    if rs == [] then Valuation(cost, remaining)
    else
      var r := rs[0];
      if skipped + r.quantity <= issued then Walk(rs[1..], issued, skipped + r.quantity, cost, remaining)
      else
        var available := r.quantity - Max(0.0, issued - skipped);
        var take := Min(remaining, available);
        var cost' := cost + LayerCost(r, take);
        var remaining' := remaining - take;
        if remaining' <= 0.0 then Valuation(cost', remaining')
        else Walk(rs[1..], issued, skipped + r.quantity, cost', remaining')
  }

  /** `item?.lastPurchaseRate || 0` for the first item with the id. */
  function FallbackRate(items: seq<InventoryItem>, itemId: string): real {
    if items == [] then 0.0
    else if items[0].id == itemId then items[0].lastPurchaseRate
    else FallbackRate(items[1..], itemId)
  }

  /**
   * The walk over `rs` past `issued` units, with the unmet remainder valued
   * at `fallback`.
   */
  function ValueIssue(rs: seq<StockTransaction>, issued: real, q: real, fallback: real): real {
    var w := Walk(rs, issued, 0.0, 0.0, q);
    if w.unmet > 0.0 then w.cost + w.unmet * fallback else w.cost
  }

  /** The value `calculateFIFOCost(itemId, q)` returns. */
  function FifoCost(txns: seq<StockTransaction>, items: seq<InventoryItem>, itemId: string, q: real): real {
    ValueIssue(Layers(txns, itemId), TotalIssued(txns, itemId), q, FallbackRate(items, itemId))
  }

  lemma SliceStep(s: seq<StockTransaction>, i: nat)
    requires i < |s|
    ensures s[i..] != [] && s[i..][0] == s[i] && s[i..][1..] == s[i + 1..]
  {
  }

  /**
   * The loop of `calculateFIFOCost` over the date-ordered receipts: skip
   * the layers earlier issues used up, then take from each layer until the
   * quantity is valued. Returns the cost so far and the unmet quantity.
   */
  method WalkReceipts(receipts: seq<StockTransaction>, totalIssued: real, q: real) returns (cost: real, remaining: real)
    ensures Valuation(cost, remaining) == Walk(receipts, totalIssued, 0.0, 0.0, q)
  {
    var skipped := 0.0;
    cost := 0.0;
    remaining := q;
    var i := 0;
    while i < |receipts|
      invariant 0 <= i <= |receipts|
      invariant Walk(receipts[i..], totalIssued, skipped, cost, remaining) == Walk(receipts, totalIssued, 0.0, 0.0, q)
    {
      var r := receipts[i];
      ghost var before := receipts[i..];
      SliceStep(receipts, i);
      if skipped + r.quantity <= totalIssued {
        WalkSkip(before, totalIssued, skipped, cost, remaining, skipped + r.quantity);
        skipped := skipped + r.quantity;
        i := i + 1;
      } else {
        var available := r.quantity - Max(0.0, totalIssued - skipped);
        var take := Min(remaining, available);
        WalkTake(before, totalIssued, skipped, cost, remaining, take, skipped + r.quantity, cost + LayerCost(r, take), remaining - take);
        cost := cost + LayerCost(r, take);
        remaining := remaining - take;
        skipped := skipped + r.quantity;
        i := i + 1;
        if remaining <= 0.0 {
          break;
        }
      }
    }
    if i == |receipts| {
      assert receipts[i..] == [];
    }
  }

  /**
   * `calculateFIFOCost`: walk the item's receipts in date order past the
   * units already issued, then value any unmet quantity at the item's last
   * purchase rate.
   */
  method CalculateFifoCost(txns: seq<StockTransaction>, items: seq<InventoryItem>, itemId: string, q: real)
    returns (cost: real)
    ensures cost == FifoCost(txns, items, itemId, q)
  {
    var receipts := Layers(txns, itemId);
    var totalIssued := TotalIssued(txns, itemId);
    var remaining;
    cost, remaining := WalkReceipts(receipts, totalIssued, q);
    if remaining > 0.0 {
      cost := cost + remaining * FallbackRate(items, itemId);
    }
  }

  /** Total quantity of a list of layers. */
  function LayerQty(rs: seq<StockTransaction>): real {
    if rs == [] then 0.0 else rs[0].quantity + LayerQty(rs[1..])
  }

  /** The value of `units` units of layer `r` at its rate. */
  function LayerCost(r: StockTransaction, units: real): real {
    units * r.rate
  }

  lemma LayerCostAdditive(r: StockTransaction, x: real, y: real)
    ensures LayerCost(r, x + y) == LayerCost(r, x) + LayerCost(r, y)
  {
  }

  /** Cost of the first `n` units of the layers, oldest layer first. */
  function PrefixCost(rs: seq<StockTransaction>, n: real): real
    decreases |rs|
  {
    if rs == [] then 0.0
    else
      var t := Min(n, rs[0].quantity);
      LayerCost(rs[0], t) + PrefixCost(rs[1..], n - t)
  }

  /** Every layer holds a non-negative quantity. */
  predicate NonNegativeLayers(rs: seq<StockTransaction>) {
    forall i :: 0 <= i < |rs| ==> rs[i].quantity >= 0.0
  }

  /** The first layer and every later one hold no negative quantity. */
  lemma NonNegativeTail(rs: seq<StockTransaction>)
    requires rs != [] && NonNegativeLayers(rs)
    ensures rs[0].quantity >= 0.0 && NonNegativeLayers(rs[1..])
  {
    forall i | 0 <= i < |rs| - 1
      ensures rs[1..][i].quantity >= 0.0
    {
      assert rs[1..][i] == rs[i + 1];
    }
  }

  lemma {:induction false} LayerQtyNonNegative(rs: seq<StockTransaction>)
    requires NonNegativeLayers(rs)
    ensures LayerQty(rs) >= 0.0
    decreases |rs|
  {
    if rs != [] {
      NonNegativeTail(rs);
    LayerQtyNonNegative(rs[1..]);
    }
  }

  lemma {:induction false} PrefixCostZero(rs: seq<StockTransaction>, n: real)
    requires n <= 0.0 && NonNegativeLayers(rs)
    ensures PrefixCost(rs, n) == 0.0 || n < 0.0
    ensures n == 0.0 ==> PrefixCost(rs, n) == 0.0
    decreases |rs|
  {
    if rs != [] && n == 0.0 {
      NonNegativeTail(rs);
      PrefixCostZero(rs[1..], 0.0);
    }
  }

  /** Within the first layer, the prefix cost is linear in the units taken. */
  lemma PrefixCostInFirstLayer(rs: seq<StockTransaction>, n: real)
    requires rs != [] && NonNegativeLayers(rs) && 0.0 <= n <= rs[0].quantity
    ensures PrefixCost(rs, n) == LayerCost(rs[0], n)
  {
    NonNegativeTail(rs);
    PrefixCostZero(rs[1..], 0.0);
  }

  /** Past the first layer, the prefix cost is the whole first layer plus the rest. */
  lemma PrefixCostPastFirstLayer(rs: seq<StockTransaction>, n: real)
    requires rs != [] && rs[0].quantity <= n
    ensures PrefixCost(rs, n) == LayerCost(rs[0], rs[0].quantity) + PrefixCost(rs[1..], n - rs[0].quantity)
  {
  }

  /**
   * The cost of the units from offset `a` to `a + m` of the layers (capped
   * at what the layers hold), and how much of `m` they leave uncovered.
   */
  function Interval(rs: seq<StockTransaction>, a: real, m: real): Valuation {
    var total := LayerQty(rs);
    var lo := Min(a, total);
    var hi := Min(a + m, total);
    Valuation(PrefixCost(rs, hi) - PrefixCost(rs, lo), m - (hi - lo))
  }

  lemma IntervalPastFirstLayer(rs: seq<StockTransaction>, a: real, m: real)
    requires rs != [] && rs[0].quantity <= a && m >= 0.0
    requires NonNegativeLayers(rs)
    ensures Interval(rs, a, m).cost == Interval(rs[1..], a - rs[0].quantity, m).cost
    ensures Interval(rs, a, m).unmet == Interval(rs[1..], a - rs[0].quantity, m).unmet
  {
    var q := rs[0].quantity;
    NonNegativeTail(rs);
    LayerQtyNonNegative(rs[1..]);
    var total := LayerQty(rs);
    PrefixCostPastFirstLayer(rs, Min(a, total));
    PrefixCostPastFirstLayer(rs, Min(a + m, total));
  }

  lemma IntervalInsideFirstLayer(rs: seq<StockTransaction>, a: real, m: real)
    requires rs != [] && 0.0 <= a && 0.0 <= m && a + m <= rs[0].quantity
    requires NonNegativeLayers(rs)
    ensures Interval(rs, a, m).cost == LayerCost(rs[0], m)
    ensures Interval(rs, a, m).unmet == 0.0
  {
    NonNegativeTail(rs);
    LayerQtyNonNegative(rs[1..]);
    assert LayerQty(rs) >= a + m;
    PrefixCostInFirstLayer(rs, a);
    PrefixCostInFirstLayer(rs, a + m);
    LayerCostAdditive(rs[0], a, m);
    assert Interval(rs, a, m) == Valuation(PrefixCost(rs, a + m) - PrefixCost(rs, a), 0.0);
  }

  lemma IntervalAcrossFirstLayer(rs: seq<StockTransaction>, a: real, m: real, take: real)
    requires rs != [] && 0.0 <= a && take == rs[0].quantity - a && 0.0 <= take < m
    requires NonNegativeLayers(rs)
    ensures Interval(rs, a, m).cost == LayerCost(rs[0], take) + Interval(rs[1..], 0.0, m - take).cost
    ensures Interval(rs, a, m).unmet == Interval(rs[1..], 0.0, m - take).unmet
  {
    NonNegativeTail(rs);
    LayerQtyNonNegative(rs[1..]);
    var total := LayerQty(rs);
    PrefixCostInFirstLayer(rs, a);
    PrefixCostPastFirstLayer(rs, Min(a + m, total));
    PrefixCostZero(rs[1..], 0.0);
    LayerCostAdditive(rs[0], a, take);
  }

  /** One step of the walk over a layer wholly consumed by earlier issues. */
  lemma WalkSkip(rs: seq<StockTransaction>, issued: real, skipped: real, cost: real, remaining: real, skipped': real)
    requires rs != [] && skipped + rs[0].quantity <= issued && skipped' == skipped + rs[0].quantity
    ensures Walk(rs, issued, skipped, cost, remaining) == Walk(rs[1..], issued, skipped', cost, remaining)
  {
  }

  /**
   * One step of the walk over a layer that is not wholly consumed yet:
   * `take` units at the layer's rate, moving to the primed state.
   */
  lemma WalkTake(rs: seq<StockTransaction>, issued: real, skipped: real, cost: real, remaining: real,
                 take: real, skipped': real, cost': real, remaining': real)
    requires rs != [] && skipped + rs[0].quantity > issued
    requires take == Min(remaining, rs[0].quantity - Max(0.0, issued - skipped))
    requires skipped' == skipped + rs[0].quantity && cost' == cost + LayerCost(rs[0], take) && remaining' == remaining - take
    ensures remaining' <= 0.0 ==> Walk(rs, issued, skipped, cost, remaining) == Valuation(cost', remaining')
    ensures remaining' > 0.0 ==> Walk(rs, issued, skipped, cost, remaining) == Walk(rs[1..], issued, skipped', cost', remaining')
  {
  }

  /** The layers never cover more than was asked for. */
  lemma IntervalUnmetNonNegative(rs: seq<StockTransaction>, a: real, m: real)
    requires m >= 0.0
    ensures Interval(rs, a, m).unmet >= 0.0
  {
  }

  /** Receipts of non-negative quantity give non-negative layers. */
  lemma LayersNonNegative(txns: seq<StockTransaction>, itemId: string)
    requires forall t :: t in txns && t.itemId == itemId && t.kind == StockReceipt ==> t.quantity >= 0.0
    ensures NonNegativeLayers(Layers(txns, itemId))
  {
    Sorting.SortByFacts(Receipts(txns, itemId), TxnDate);
    ReceiptsAreReceipts(txns, itemId);
    forall i | 0 <= i < |Layers(txns, itemId)|
      ensures Layers(txns, itemId)[i].quantity >= 0.0
    {
      assert Layers(txns, itemId)[i] in multiset(Receipts(txns, itemId));
    }
  }

  /** The step of the induction below for a layer that the issue exhausts. */
  lemma {:induction false} WalkIntervalAcross(rs: seq<StockTransaction>, issued: real, skipped: real, cost: real, remaining: real, take: real)
    requires rs != [] && NonNegativeLayers(rs) && skipped + rs[0].quantity > issued
    requires take == rs[0].quantity - Max(0.0, issued - skipped) && take < remaining
    ensures Walk(rs, issued, skipped, cost, remaining).cost == cost + Interval(rs, Max(0.0, issued - skipped), remaining).cost
    ensures Walk(rs, issued, skipped, cost, remaining).unmet == Interval(rs, Max(0.0, issued - skipped), remaining).unmet
    decreases |rs|, 0
  {
    NonNegativeTail(rs);
    WalkIsLayerInterval(rs[1..], issued, skipped + rs[0].quantity, cost + LayerCost(rs[0], take), remaining - take);
    assert Max(0.0, issued - (skipped + rs[0].quantity)) == 0.0;
    WalkTake(rs, issued, skipped, cost, remaining, take, skipped + rs[0].quantity, cost + LayerCost(rs[0], take), remaining - take);
    IntervalAcrossFirstLayer(rs, Max(0.0, issued - skipped), remaining, take);
  }

  /** The step of the induction below for a layer that covers the rest of the issue. */
  lemma WalkIntervalInside(rs: seq<StockTransaction>, issued: real, skipped: real, cost: real, remaining: real)
    requires rs != [] && NonNegativeLayers(rs) && skipped + rs[0].quantity > issued && remaining >= 0.0
    requires remaining <= rs[0].quantity - Max(0.0, issued - skipped)
    ensures Walk(rs, issued, skipped, cost, remaining).cost == cost + Interval(rs, Max(0.0, issued - skipped), remaining).cost
    ensures Walk(rs, issued, skipped, cost, remaining).unmet == Interval(rs, Max(0.0, issued - skipped), remaining).unmet
  {
    WalkTake(rs, issued, skipped, cost, remaining, remaining, skipped + rs[0].quantity, cost + LayerCost(rs[0], remaining), 0.0);
    IntervalInsideFirstLayer(rs, Max(0.0, issued - skipped), remaining);
  }

  /** The step of the induction below for a layer that earlier issues used up. */
  lemma {:induction false} WalkIntervalPast(rs: seq<StockTransaction>, issued: real, skipped: real, cost: real, remaining: real)
    requires rs != [] && NonNegativeLayers(rs) && skipped + rs[0].quantity <= issued && remaining >= 0.0
    ensures Walk(rs, issued, skipped, cost, remaining).cost == cost + Interval(rs, Max(0.0, issued - skipped), remaining).cost
    ensures Walk(rs, issued, skipped, cost, remaining).unmet == Interval(rs, Max(0.0, issued - skipped), remaining).unmet
    decreases |rs|, 0
  {
    NonNegativeTail(rs);
    WalkIsLayerInterval(rs[1..], issued, skipped + rs[0].quantity, cost, remaining);
    WalkSkip(rs, issued, skipped, cost, remaining, skipped + rs[0].quantity);
    assert Max(0.0, issued - (skipped + rs[0].quantity)) == Max(0.0, issued - skipped) - rs[0].quantity;
    IntervalPastFirstLayer(rs, Max(0.0, issued - skipped), remaining);
  }

  /**
   * What the walk computes, stated independently of the walk: with
   * `max(0, issued - skipped)` units of these layers already consumed, it
   * adds the cost of the next `remaining` units (as far as the layers
   * reach) and leaves the unmet quantity in `remaining`.
   */
  lemma {:induction false} WalkIsLayerInterval(rs: seq<StockTransaction>, issued: real, skipped: real, cost: real, remaining: real)
    requires NonNegativeLayers(rs) && remaining >= 0.0
    ensures Walk(rs, issued, skipped, cost, remaining).cost == cost + Interval(rs, Max(0.0, issued - skipped), remaining).cost
    ensures Walk(rs, issued, skipped, cost, remaining).unmet == Interval(rs, Max(0.0, issued - skipped), remaining).unmet
    decreases |rs|, 1
  {
    if rs == [] {
      assert Interval(rs, Max(0.0, issued - skipped), remaining) == Valuation(0.0, remaining);
    } else if skipped + rs[0].quantity <= issued {
      WalkIntervalPast(rs, issued, skipped, cost, remaining);
    } else if remaining <= rs[0].quantity - Max(0.0, issued - skipped) {
      WalkIntervalInside(rs, issued, skipped, cost, remaining);
    } else {
      WalkIntervalAcross(rs, issued, skipped, cost, remaining, rs[0].quantity - Max(0.0, issued - skipped));
    }
  }

  /**
   * FIFO correctness: an issue of `q` units, after `issued` units have
   * already gone out, costs the units from `issued` to `issued + q` of the
   * layers in order; whatever the layers cannot cover is valued at the
   * fallback rate. `FifoCost` applies this to the date-ordered receipts,
   * whose quantities `LayersNonNegative` shows are non-negative.
   */
  lemma ValueIssueIsInterval(rs: seq<StockTransaction>, issued: real, q: real, fallback: real)
    requires NonNegativeLayers(rs) && q >= 0.0 && issued >= 0.0
    ensures ValueIssue(rs, issued, q, fallback) == Interval(rs, issued, q).cost + Interval(rs, issued, q).unmet * fallback
  {
    WalkIsLayerInterval(rs, issued, 0.0, 0.0, q);
    assert Max(0.0, issued - 0.0) == issued;
    IntervalUnmetNonNegative(rs, issued, q);
    FallbackValuation(Walk(rs, issued, 0.0, 0.0, q), Interval(rs, issued, q), fallback);
  }

  /** Valuing the unmet quantity at the fallback rate, when nothing or something is unmet. */
  lemma FallbackValuation(w: Valuation, iv: Valuation, rate: real)
    requires w.cost == 0.0 + iv.cost && w.unmet == iv.unmet && iv.unmet >= 0.0
    ensures (if w.unmet > 0.0 then w.cost + w.unmet * rate else w.cost) == iv.cost + iv.unmet * rate
  {
    if w.unmet <= 0.0 {
      assert iv.unmet == 0.0;
    }
  }

  /**
   * The worked example: receipts of 10 @ 5 and 10 @ 7; an issue of 15
   * costs 85, and once those 15 have gone out an issue of 5 costs 35.
   */
  lemma FifoExample(a: StockTransaction, b: StockTransaction, c: StockTransaction)
    requires a == StockTransaction("r1", 1, StockReceipt, "X", "Widget", 10.0, 5.0, 50.0, None)
    requires b == StockTransaction("r2", 2, StockReceipt, "X", "Widget", 10.0, 7.0, 70.0, None)
    requires c == StockTransaction("i1", 3, StockIssue, "X", "Widget", 15.0, 85.0 / 15.0, 85.0, None)
    ensures FifoCost([a, b], [], "X", 15.0) == 85.0
    ensures FifoCost([a, b, c], [], "X", 5.0) == 35.0
  {
    assert [a, b][..1] == [a] && [a][..0] == [] && [a, b, c][..2] == [a, b];
    assert Receipts([a], "X") == [a];
    assert Receipts([a, b], "X") == [a, b];
    assert Receipts([a, b, c], "X") == [a, b];
    assert Sorting.SortBy([a], TxnDate) == [a];
    assert Sorting.SortBy([a, b], TxnDate) == [a, b];
    assert TotalIssued([a], "X") == 0.0;
    assert TotalIssued([a, b], "X") == 0.0;
    assert TotalIssued([a, b, c], "X") == 15.0;
    assert [a, b][1..] == [b] && [b][1..] == [];
    assert Walk([b], 0.0, 10.0, 50.0, 5.0) == Valuation(85.0, 0.0);
    assert Walk([a, b], 0.0, 0.0, 0.0, 15.0) == Valuation(85.0, 0.0);
    assert Walk([b], 15.0, 10.0, 0.0, 5.0) == Valuation(35.0, 0.0);
    assert Walk([a, b], 15.0, 0.0, 0.0, 5.0) == Valuation(35.0, 0.0);
  }
}
