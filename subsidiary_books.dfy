/**
 * The subsidiary-books entry form: invoice lines and their totals, the
 * line edits, the stock-sufficiency guard of outward books and the save
 * that records and posts the document through the engine.
 */
module SubsidiaryBooks {
  import opened Model
  import opened JsText
  import opened Stock
  import opened Journal
  import opened Engine

  /** The sum of the line amounts. */
  function SubTotal(items: seq<InvoiceItem>): real {
    if items == [] then 0.0 else SubTotal(items[..|items| - 1]) + items[|items| - 1].amount
  }

  lemma SubTotalAppend(items: seq<InvoiceItem>, x: InvoiceItem)
    ensures SubTotal(items + [x]) == SubTotal(items) + x.amount
  {
    assert (items + [x])[..|items|] == items;
  }

  datatype InvoiceTotals = InvoiceTotals(subTotal: real, tradeDiscountAmount: real, totalAmount: real)

  /** The form's running totals: trade discount as a percentage of the subtotal, cash discount as an amount. */
  function Totals(items: seq<InvoiceItem>, tradeDiscount: real, cashDiscount: real): (t: InvoiceTotals)
    ensures t.subTotal == SubTotal(items)
    ensures t.totalAmount == t.subTotal - t.tradeDiscountAmount - cashDiscount
    ensures t.tradeDiscountAmount * 100.0 == t.subTotal * tradeDiscount
  {
    var subTotal := SubTotal(items);
    var tradeDiscountAmount := (subTotal * tradeDiscount) / 100.0;
    InvoiceTotals(subTotal, tradeDiscountAmount, subTotal - tradeDiscountAmount - cashDiscount)
  }

  /** With no discounts, the invoice total is the subtotal. */
  lemma NoDiscountTotal(items: seq<InvoiceItem>)
    ensures Totals(items, 0.0, 0.0).totalAmount == SubTotal(items)
  {
  }

  /** A field edit of one invoice line. */
  datatype ItemEdit =
    | SetDescription(description: string)
    | SetQuantity(quantity: real)
    | SetUnit(unit: string)
    | SetRate(rate: real)
    | SetAmount(amount: real)

  function ApplyEdit(item: InvoiceItem, edit: ItemEdit): (r: InvoiceItem)
    ensures r.id == item.id
    ensures edit.SetQuantity? || edit.SetRate? ==> r.amount == r.quantity * r.rate
    ensures edit.SetDescription? || edit.SetUnit? ==> r.amount == item.amount
  {
    match edit
    case SetDescription(d) => item.(description := d)
    case SetQuantity(q) => item.(quantity := q, amount := q * item.rate)
    case SetUnit(u) => item.(unit := u)
    case SetRate(x) => item.(rate := x, amount := item.quantity * x)
    case SetAmount(a) => item.(amount := a)
  }

  /** `handleItemChange`: only the lines with the id change. */
  function HandleItemChange(items: seq<InvoiceItem>, id: string, edit: ItemEdit): (r: seq<InvoiceItem>)
    ensures |r| == |items|
    ensures forall j :: 0 <= j < |items| && items[j].id != id ==> r[j] == items[j]
    ensures forall j :: 0 <= j < |items| && items[j].id == id ==> r[j] == ApplyEdit(items[j], edit)
  {
    if items == [] then []
    else [if items[0].id == id then ApplyEdit(items[0], edit) else items[0]] + HandleItemChange(items[1..], id, edit)
  }

  /** JavaScript's `a || b` on numbers: `a` unless it is 0. */
  function OrElse(a: real, b: real): real {
    if a != 0.0 then a else b
  }

  function SelectOne(item: InvoiceItem, inv: InventoryItem): (r: InvoiceItem)
    ensures r.id == item.id && r.quantity == item.quantity
    ensures r.description == inv.name && r.unit == inv.unit
    ensures r.rate == (if inv.lastPurchaseRate != 0.0 then inv.lastPurchaseRate else item.rate)
    ensures r.amount == r.quantity * r.rate
  {
    var rate := OrElse(inv.lastPurchaseRate, OrElse(item.rate, 0.0));
    item.(description := inv.name, unit := inv.unit, rate := rate, amount := item.quantity * rate)
  }

  /** `selectInventoryItem`: the line with the id takes the master item's name, unit and rate. */
  function SelectInventoryItem(items: seq<InvoiceItem>, id: string, inv: InventoryItem): (r: seq<InvoiceItem>)
    ensures |r| == |items|
    ensures forall j :: 0 <= j < |items| ==> r[j] == (if items[j].id == id then SelectOne(items[j], inv) else items[j])
  {
    if items == [] then []
    else [if items[0].id == id then SelectOne(items[0], inv) else items[0]] + SelectInventoryItem(items[1..], id, inv)
  }

  /** A fresh blank line. */
  function BlankItem(id: string): InvoiceItem {
    InvoiceItem(id, "", 1.0, "Pcs", 0.0, 0.0)
  }

  function AddItem(items: seq<InvoiceItem>, id: string): (r: seq<InvoiceItem>)
    ensures r == items + [BlankItem(id)] && SubTotal(r) == SubTotal(items)
  {
    SubTotalAppend(items, BlankItem(id));
    items + [BlankItem(id)]
  }

  function WithoutId(items: seq<InvoiceItem>, id: string): (r: seq<InvoiceItem>)
    ensures |r| <= |items|
    ensures forall j :: 0 <= j < |r| ==> r[j].id != id && r[j] in items
    ensures forall x :: x in items && x.id != id ==> x in r
  {
    if items == [] then []
    else (if items[0].id != id then [items[0]] else []) + WithoutId(items[1..], id)
  }

  predicate DistinctIds(items: seq<InvoiceItem>) {
    forall j, k :: 0 <= j < k < |items| ==> items[j].id != items[k].id
  }

  /** `removeItem`: the only line of an invoice is never removed. */
  function RemoveItem(items: seq<InvoiceItem>, id: string): (r: seq<InvoiceItem>)
    ensures |items| <= 1 ==> r == items
  {
    if |items| > 1 then WithoutId(items, id) else items
  }

  /** With distinct line ids, removing a line that exists leaves one line fewer, and never none. */
  lemma RemoveItemKeepsALine(items: seq<InvoiceItem>, id: string, k: nat)
    requires DistinctIds(items) && k < |items| && items[k].id == id
    ensures |items| > 1 ==> |RemoveItem(items, id)| == |items| - 1 && |RemoveItem(items, id)| >= 1
    ensures |RemoveItem(items, id)| >= 1
  {
    if |items| > 1 {
      RemoveOneId(items, id, k);
    }
  }

  lemma {:induction false} RemoveOneId(items: seq<InvoiceItem>, id: string, k: nat)
    requires DistinctIds(items) && k < |items| && items[k].id == id
    ensures |WithoutId(items, id)| == |items| - 1
    decreases |items|
  {
    if k == 0 {
      assert forall j :: 0 <= j < |items[1..]| ==> items[1..][j].id != id by {
        forall j | 0 <= j < |items[1..]| ensures items[1..][j].id != id {
          assert items[1..][j] == items[j + 1];
        }
      }
      KeepAll(items[1..], id);
    } else {
      assert DistinctIds(items[1..]) by {
        forall j, m | 0 <= j < m < |items[1..]| ensures items[1..][j].id != items[1..][m].id {
          assert items[1..][j] == items[j + 1] && items[1..][m] == items[m + 1];
        }
      }
      assert items[1..][k - 1] == items[k];
      RemoveOneId(items[1..], id, k - 1);
    }
  }

  lemma {:induction false} KeepAll(items: seq<InvoiceItem>, id: string)
    requires forall j :: 0 <= j < |items| ==> items[j].id != id
    ensures WithoutId(items, id) == items
    decreases |items|
  {
    if items != [] {
      assert forall j :: 0 <= j < |items[1..]| ==> items[1..][j].id != id by {
        forall j | 0 <= j < |items[1..]| ensures items[1..][j].id != id {
          assert items[1..][j] == items[j + 1];
        }
      }
      KeepAll(items[1..], id);
    }
  }

  /** The books whose save is checked against the stock on hand. */
  predicate Outward(book: BookType) {
    book == Sales || book == PurchaseReturn
  }

  datatype Shortage = Shortage(itemName: string, available: real, requested: real)

  /** The first line, linked to a master item, whose quantity exceeds that item's stock. */
  function FirstShortage(items: seq<InvoiceItem>, inventory: seq<InventoryItem>, txns: seq<StockTransaction>): (r: Option<Shortage>)
    ensures r.Some? ==> r.value.requested > r.value.available
  {
    if items == [] then None
    else match FindItem(inventory, items[0].description)
      case Some(inv) =>
        if items[0].quantity > StockBalance(txns, inv.id) then Some(Shortage(inv.name, StockBalance(txns, inv.id), items[0].quantity))
        else FirstShortage(items[1..], inventory, txns)
      case None => FirstShortage(items[1..], inventory, txns)
  }

  /** With no shortage, every linked line on its own fits within its item's stock. */
  lemma {:induction false} NoShortageMeansEachLineFits(items: seq<InvoiceItem>, inventory: seq<InventoryItem>,
    txns: seq<StockTransaction>, j: nat)
    requires FirstShortage(items, inventory, txns).None? && j < |items|
    ensures FindItem(inventory, items[j].description).Some? ==>
      items[j].quantity <= StockBalance(txns, FindItem(inventory, items[j].description).value.id)
  {
    var found := FindItem(inventory, items[0].description);
    assert found.Some? ==> items[0].quantity <= StockBalance(txns, found.value.id);
    assert FirstShortage(items[1..], inventory, txns).None?;
    if j > 0 {
      assert items[1..][j - 1] == items[j];
      NoShortageMeansEachLineFits(items[1..], inventory, txns, j - 1);
    }
  }

  /**
   * Each line is checked alone: two lines of the same item, each within
   * the stock of 10, pass the check though together they ask for 12.
   */
  lemma LinesCheckedSeparately(inv: InventoryItem, r: StockTransaction, a: InvoiceItem, b: InvoiceItem)
    requires r.kind == StockReceipt && r.itemId == inv.id && r.quantity == 10.0
    requires a.description == b.description && Lower(inv.name) == Lower(Trim(a.description))
    requires a.quantity == 6.0 && b.quantity == 6.0
    ensures FirstShortage([a, b], [inv], [r]).None?
    ensures a.quantity + b.quantity > StockBalance([r], inv.id)
  {
    assert FindItem([inv], a.description) == Some(inv);
    assert [r][..0] == [];
    assert StockBalance([r], inv.id) == 10.0;
    assert [b][1..] == [];
    assert FirstShortage([b], [inv], [r]) == FirstShortage([], [inv], [r]);
    assert [a, b][1..] == [b];
    assert FirstShortage([a, b], [inv], [r]) == FirstShortage([b], [inv], [r]);
  }

  /** The guard loop of `handleSaveEntry`, returning at the first short line. */
  method CheckStock(items: seq<InvoiceItem>, inventory: seq<InventoryItem>, txns: seq<StockTransaction>)
    returns (shortage: Option<Shortage>)
    ensures shortage == FirstShortage(items, inventory, txns)
  {
    var k := 0;
    while k < |items|
      invariant 0 <= k <= |items|
      invariant FirstShortage(items[k..], inventory, txns) == FirstShortage(items, inventory, txns)
    {
      assert items[k..][1..] == items[k + 1..];
      var inv := FindItem(inventory, items[k].description);
      if inv.Some? {
        var liveStock := StockBalance(txns, inv.value.id);
        if items[k].quantity > liveStock {
          return Some(Shortage(inv.value.name, liveStock, items[k].quantity));
        }
      }
      k := k + 1;
    }
    return None;
  }

  /** The entry form's fields. */
  datatype InvoiceForm = InvoiceForm(
    book: BookType, partyName: string, date: int, items: seq<InvoiceItem>,
    tradeDiscount: real, cashDiscount: real, referenceId: string)

  predicate ReturnBook(book: BookType) {
    book == PurchaseReturn || book == SalesReturn
  }

  /** The document the form saves, under a fresh id and document number. */
  function NewDocument(form: InvoiceForm, id: string, invoiceNumber: string): (d: SubsidiaryEntry)
    ensures d.referenceId.Some? <==> ReturnBook(form.book)
    ensures d.bookType == form.book && d.items == form.items && d.partyName == form.partyName && !d.posted
    ensures d.totalAmount == d.subTotal - d.discountAmount - d.cashDiscountAmount
  {
    var t := Totals(form.items, form.tradeDiscount, form.cashDiscount);
    SubsidiaryEntry(id, Some(invoiceNumber), if ReturnBook(form.book) then Some(form.referenceId) else None,
      form.date, form.book, form.partyName, form.items, form.tradeDiscount, form.cashDiscount,
      t.subTotal, t.tradeDiscountAmount, t.totalAmount, false)
  }

  /** A saved purchase or sale with a cash discount that is not negative always posts a balanced journal entry. */
  lemma SavedInvoiceBalances(form: InvoiceForm, id: string, invoiceNumber: string)
    requires (form.book == Purchase || form.book == Sales) && form.cashDiscount >= 0.0
    ensures DocumentBalances(NewDocument(form, id, invoiceNumber))
  {
  }

  datatype SaveOutcome = MissingParty | InsufficientStock(shortage: Shortage) | Saved(doc: SubsidiaryEntry)

  /** `handleSaveEntry`: the party is required; outward books are checked against live stock; then the document is recorded and posted. */
  method HandleSaveEntry(store: Store, form: InvoiceForm, id: string) returns (outcome: SaveOutcome)
    modifies store
    ensures Trim(form.partyName) == [] ==> outcome == MissingParty && store.State() == old(store.State())
    ensures outcome.InsufficientStock? <==> (Trim(form.partyName) != [] && Outward(form.book)
      && FirstShortage(form.items, old(store.inventoryItems), old(store.stockTransactions)).Some?)
    ensures !outcome.Saved? ==> store.State() == old(store.State())
    ensures outcome.Saved? ==> (outcome.doc == NewDocument(form, id, DocumentId(form.book, store.ids.uuid(old(store.drawn))))
      && store.subsidiaryEntries == old(store.subsidiaryEntries) + [outcome.doc]
      && old(store.stockTransactions) <= store.stockTransactions)
    ensures outcome.Saved? ==> (|store.entries| == |old(store.entries)| + 1 <==> Abs(DocumentImbalance(outcome.doc)) <= Tolerance)
    ensures outcome.Saved? && DocumentBalances(outcome.doc) ==> |store.entries| == |old(store.entries)| + 1
    ensures outcome.Saved? && |store.entries| == |old(store.entries)| + 1 ==>
      store.entries[1..] == old(store.entries) && store.entries[0].date == form.date &&
      store.entries[0].narration == DocumentNarration(form.book) &&
      PostsDocumentLines(old(store.accounts), outcome.doc, store.entries[0].lines)
    ensures outcome.Saved? ==>
      Stocked(outcome.doc, old(store.stockTransactions), old(store.inventoryItems), outcome.doc.items, old(store.inventoryItems),
              store.stockTransactions[|old(store.stockTransactions)|..], store.inventoryItems)
    ensures old(store.Valid()) ==> store.Valid()
  {
    if Trim(form.partyName) == [] {
      return MissingParty;
    }
    if Outward(form.book) {
      var shortage := CheckStock(form.items, store.inventoryItems, store.stockTransactions);
      if shortage.Some? {
        return InsufficientStock(shortage.value);
      }
    }
    var invoiceNumber := store.GenerateDocumentId(form.book);
    var doc := NewDocument(form, id, invoiceNumber);
    store.AddSubsidiaryEntry(doc);
    store.PostSubsidiaryEntry(doc);
    outcome := Saved(doc);
  }
}
