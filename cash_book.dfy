/**
 * The cash-book entry form: the account suggestions, the value posted,
 * the guards of the post button and the cash-book record it hands to the
 * engine.
 */
module CashBook {
  import opened Model
  import opened JsText
  import opened Registry
  import opened Postings
  import opened Engine

  /** An account the form never suggests: the cash and bank accounts the entry always touches. */
  predicate CashOrBank(a: Account) {
    a.name == "Cash A/c" || a.name == "Bank A/c"
  }

  /** `filteredAccounts`: by lower-cased name, never cash or bank, and none for an empty query. */
  function FilteredAccounts(accounts: seq<Account>, query: string): (r: seq<Account>)
    ensures query == [] ==> r == []
    ensures forall a :: a in r ==> !CashOrBank(a)
    ensures query != [] ==> forall a :: a in r <==> a in accounts && Contains(Lower(a.name), Lower(query)) && !CashOrBank(a)
  {
    if query == [] then [] else Suggestions(accounts, Lower(query))
  }

  function Suggestions(accounts: seq<Account>, q: string): (r: seq<Account>)
    ensures forall a :: a in r <==> a in accounts && Contains(Lower(a.name), q) && !CashOrBank(a)
  {
    if accounts == [] then []
    else
      var a := accounts[0];
      (if Contains(Lower(a.name), q) && !CashOrBank(a) then [a] else []) + Suggestions(accounts[1..], q)
  }

  /** The form's fields. */
  datatype CashForm = CashForm(
    kind: CashType, query: string, selected: Option<Account>, date: int,
    cashAmount: real, bankAmount: real, discountAmount: real, isContra: bool, isOpeningBalance: bool)

  /** `totalTxnValue`: cash, bank and discount together. */
  function TotalValue(f: CashForm): real {
    f.cashAmount + f.bankAmount + f.discountAmount
  }

  /** `toggleContra`: switching contra on clears the selection and names the other side of the cash/bank pair. */
  function ToggleContra(f: CashForm): (r: CashForm)
    ensures r.isContra == !f.isContra
    ensures r.isContra ==> r.selected.None? && r.query == (if f.kind == Receipt then "Bank A/c" else "Cash A/c")
    ensures !r.isContra ==> r == f.(isContra := false)
  {
    if !f.isContra then f.(isContra := true, selected := None, query := if f.kind == Receipt then "Bank A/c" else "Cash A/c")
    else f.(isContra := false)
  }

  /** What the form writes as the entry's particulars. */
  function Particulars(f: CashForm, name: string): (p: string)
    ensures f.isOpeningBalance ==> p == "Balance b/d"
    ensures !f.isOpeningBalance && f.isContra ==> p == "Contra Entry"
    ensures !f.isOpeningBalance && !f.isContra ==>
      p == "Being " + (if f.kind == Receipt then "receipt from " else "payment to ") + name
  {
    if f.isOpeningBalance then "Balance b/d"
    else if f.isContra then "Contra Entry"
    else "Being " + (if f.kind == Receipt then "receipt" else "payment") + " " + (if f.kind == Receipt then "from" else "to") + " " + name
  }

  /** The record posted for an account (ignored for a contra entry, which names no account). */
  function EntryFor(f: CashForm, id: string, acc: Option<Account>): (e: CashBookEntry)
    ensures e.id == id && e.date == f.date && e.kind == f.kind && e.posted
    ensures e.cashAmount == f.cashAmount && e.bankAmount == f.bankAmount && e.discountAmount == f.discountAmount
    ensures e.isContra == f.isContra && e.isOpeningBalance == f.isOpeningBalance
    ensures f.isContra ==> e.accountName == ContraName(f.kind)
    ensures !f.isContra && acc.Some? ==> e.accountName == acc.value.name
    ensures e.accountId == (if acc.Some? then acc.value.id else "")
  {
    var name := if acc.Some? then acc.value.name else "";
    CashBookEntry(id, f.date, f.kind, if acc.Some? then acc.value.id else "",
      if f.isContra then ContraName(f.kind) else name,
      Particulars(f, name), f.cashAmount, f.bankAmount, f.discountAmount, f.isContra, f.isOpeningBalance, true)
  }

  datatype CashPost =
    | OpenRegistration(name: string)
    | AccountRequired
    | ValueRequired
    | SelectionNotYetApplied(account: Account)
    | Post(entry: CashBookEntry)

  /**
   * `handlePost` as written. A typed name that matches an account is
   * selected through a state update that the rest of the handler does not
   * see, so the entry is built from the still-empty selection and the
   * handler stops there (a null dereference) without posting.
   */
  function HandlePostAsWritten(f: CashForm, accounts: seq<Account>, id: string): (r: CashPost)
    ensures r.OpenRegistration? <==> f.selected.None? && !f.isContra && FindByName(accounts, f.query).None? && Trim(f.query) != []
    ensures r.SelectionNotYetApplied? ==> f.selected.None? && !f.isContra && r.account in accounts
    ensures r.Post? ==> TotalValue(f) > 0.0 && (f.selected.Some? || f.isContra)
  {
    if f.selected.None? && !f.isContra && FindByName(accounts, f.query).None? then
      if Trim(f.query) != [] then OpenRegistration(f.query) else AccountRequired
    else if TotalValue(f) <= 0.0 then ValueRequired
    else if !f.isContra && f.selected.None? then SelectionNotYetApplied(FindByName(accounts, f.query).value)
    else Post(EntryFor(f, id, f.selected))
  }

  /** The account the entry is for: the selected one, else the account the typed name finds. */
  function Resolved(f: CashForm, accounts: seq<Account>): Option<Account> {
    if f.selected.Some? || f.isContra then f.selected else FindByName(accounts, f.query)
  }

  /** `handlePost` with the found account used at once. */
  function HandlePostCorrected(f: CashForm, accounts: seq<Account>, id: string): (r: CashPost)
    ensures !r.SelectionNotYetApplied?
    ensures r.OpenRegistration? <==> f.selected.None? && !f.isContra && FindByName(accounts, f.query).None? && Trim(f.query) != []
    ensures r.ValueRequired? ==> TotalValue(f) <= 0.0
    ensures r.Post? <==> (Resolved(f, accounts).Some? || f.isContra) && TotalValue(f) > 0.0
    ensures r.Post? ==> TotalValue(f) > 0.0 && r.entry == EntryFor(f, id, Resolved(f, accounts))
  {
    var acc := Resolved(f, accounts);
    if acc.None? && !f.isContra then
      if Trim(f.query) != [] then OpenRegistration(f.query) else AccountRequired
    else if TotalValue(f) <= 0.0 then ValueRequired
    else Post(EntryFor(f, id, acc))
  }

  /**
   * A payment typed as the name of an existing account, with nothing
   * selected: as written the handler stops without posting; corrected, it
   * posts against that account.
   */
  lemma TypedNameIsNotPosted(f: CashForm, accounts: seq<Account>, id: string)
    requires f.selected.None? && !f.isContra && TotalValue(f) > 0.0
    requires FindByName(accounts, f.query).Some?
    ensures HandlePostAsWritten(f, accounts, id).SelectionNotYetApplied?
    ensures HandlePostCorrected(f, accounts, id).Post?
    ensures HandlePostCorrected(f, accounts, id).entry.accountId == FindByName(accounts, f.query).value.id
  {
  }

  /** Wherever the handler as written posts, the corrected one posts the same record. */
  lemma CorrectedAgreesWhenSelected(f: CashForm, accounts: seq<Account>, id: string)
    ensures HandlePostAsWritten(f, accounts, id).Post? ==> HandlePostCorrected(f, accounts, id) == HandlePostAsWritten(f, accounts, id)
    ensures !HandlePostAsWritten(f, accounts, id).SelectionNotYetApplied? ==>
      HandlePostCorrected(f, accounts, id) == HandlePostAsWritten(f, accounts, id)
  {
  }

  /** A contra entry always carries a name that mentions the bank. */
  lemma ContraPostMentionsBank(f: CashForm, accounts: seq<Account>, id: string)
    requires f.isContra && HandlePostCorrected(f, accounts, id).Post?
    ensures Contains(Lower(HandlePostCorrected(f, accounts, id).entry.accountName), "bank")
  {
    if f.kind == Receipt {
      MentionsBank(ContraName(f.kind), 8);
    } else {
      MentionsBank(ContraName(f.kind), 16);
    }
  }

  /**
   * The post button as written: the engine records the entry exactly when
   * the handler posts it. The journal entry then carries the form's date,
   * the entry's particulars and the lines `addCashBookEntry` builds; a
   * contra entry debits the bank and credits cash with the bank amount.
   */
  method HandlePost(store: Store, f: CashForm, id: string) returns (r: CashPost)
    modifies store
    ensures r == HandlePostAsWritten(f, old(store.accounts), id)
    ensures !r.Post? ==> store.State() == old(store.State())
    ensures r.Post? ==> store.cashBookEntries == old(store.cashBookEntries) + [r.entry]
    ensures r.Post? && |store.entries| == |old(store.entries)| + 1 ==>
      store.entries[0].date == f.date && store.entries[0].narration == r.entry.particulars &&
      PostsCashBookLines(old(store.accounts), r.entry, store.entries[0].lines)
    ensures r.Post? && !f.isContra && !f.isOpeningBalance && f.cashAmount >= 0.0 && f.bankAmount >= 0.0 && f.discountAmount >= 0.0 ==>
      |store.entries| == |old(store.entries)| + 1
    ensures r.Post? && f.isContra && !f.isOpeningBalance ==>
      |store.entries| == |old(store.entries)| + 1 && |store.entries[0].lines| == 2 &&
      store.entries[0].lines[0].side == Debit && store.entries[0].lines[0].amount == f.bankAmount &&
      store.entries[0].lines[0].accountName == "Bank A/c" &&
      store.entries[0].lines[1].side == Credit && store.entries[0].lines[1].amount == f.bankAmount &&
      store.entries[0].lines[1].accountName == "Cash A/c"
    ensures old(store.Valid()) ==> store.Valid()
  {
    r := HandlePostAsWritten(f, store.accounts, id);
    if r.Post? {
      store.AddCashBookEntry(r.entry);
    }
  }

  /** The post button with the handler corrected: as `HandlePost`, but a typed name that finds an account posts. */
  method HandlePostAsIntended(store: Store, f: CashForm, id: string) returns (r: CashPost)
    modifies store
    ensures r == HandlePostCorrected(f, old(store.accounts), id)
    ensures !r.Post? ==> store.State() == old(store.State())
    ensures r.Post? ==> store.cashBookEntries == old(store.cashBookEntries) + [r.entry]
    ensures r.Post? && |store.entries| == |old(store.entries)| + 1 ==>
      store.entries[0].date == f.date && store.entries[0].narration == r.entry.particulars &&
      PostsCashBookLines(old(store.accounts), r.entry, store.entries[0].lines)
    ensures r.Post? && !f.isContra && !f.isOpeningBalance && f.cashAmount >= 0.0 && f.bankAmount >= 0.0 && f.discountAmount >= 0.0 ==>
      |store.entries| == |old(store.entries)| + 1
    ensures r.Post? && f.isContra && !f.isOpeningBalance ==>
      |store.entries| == |old(store.entries)| + 1 && |store.entries[0].lines| == 2 &&
      store.entries[0].lines[0].side == Debit && store.entries[0].lines[0].amount == f.bankAmount &&
      store.entries[0].lines[0].accountName == "Bank A/c" &&
      store.entries[0].lines[1].side == Credit && store.entries[0].lines[1].amount == f.bankAmount &&
      store.entries[0].lines[1].accountName == "Cash A/c"
    ensures old(store.Valid()) ==> store.Valid()
  {
    r := HandlePostCorrected(f, store.accounts, id);
    if r.Post? {
      store.AddCashBookEntry(r.entry);
    }
  }
}
