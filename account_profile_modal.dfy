/**
 * The account profile dialog: the classifications offered under each
 * account type, the dialog state loaded for a named account together
 * with its balance, changing the type, and saving the profile.
 */
module AccountProfileModal {
  import opened Model
  import opened Journal
  import opened JsText
  import opened Registry
  import opened Engine

  /** The type under whose list (`Registry.ClassificationsOf`) a classification appears. */
  function OwnerType(c: Classification): AccountType {
    match c
    case TangibleAsset | IntangibleAsset | CurrentAsset | SundryDebtor | Investment | Advances => Asset
    case Loans | SundryCreditor | OutstandingExp | SundryLiability => Liability
    case OwnerCapital | OwnerDrawings => Equity
    case DirectRevenue | IndirectRevenue => Revenue
    case DirectExpense | IndirectExpense => Expense
  }

  /**
   * The lists partition the classifications: each one is listed under
   * exactly one type, and no list repeats an entry.
   */
  lemma ClassificationMapPartition(k: AccountType, c: Classification)
    ensures c in ClassificationsOf(k) <==> OwnerType(c) == k
    ensures forall i, j :: 0 <= i < j < |ClassificationsOf(k)| ==> ClassificationsOf(k)[i] != ClassificationsOf(k)[j]
  {
  }

  /** The dialog's state. */
  datatype ModalState = ModalState(
    account: Option<Account>, selectedType: AccountType, classification: Option<Classification>, balance: real)

  const Closed: ModalState := ModalState(None, Asset, None, 0.0)

  /**
   * Loading the dialog for a name: when the name finds an account, its
   * type, classification and balance over the whole journal; otherwise
   * the state is left as it was.
   */
  method Open(s: ModalState, accounts: seq<Account>, entries: seq<JournalEntry>, name: string) returns (r: ModalState)
    ensures name == [] || FindByName(accounts, name).None? ==> r == s
    ensures name != [] && FindByName(accounts, name).Some? ==>
      var acc := FindByName(accounts, name).value;
      r == ModalState(Some(acc), acc.kind, Some(acc.classification), Balance(entries, acc.id))
  {
    r := s;
    if name != [] {
      var found := FindByName(accounts, name);
      if found.Some? {
        var acc := found.value;
        var bal, touched := FoldBalance(entries, acc.id);
        r := ModalState(Some(acc), acc.kind, Some(acc.classification), bal);
      }
    }
  }

  /** Choosing a type clears the chosen classification. */
  function SelectType(s: ModalState, k: AccountType): (r: ModalState)
    ensures r.selectedType == k && r.classification.None?
    ensures r.account == s.account && r.balance == s.balance
  {
    s.(selectedType := k, classification := None)
  }

  /** Choosing a classification from the list of the selected type. */
  function SelectClassification(s: ModalState, c: Classification): (r: ModalState)
    requires c in ClassificationsOf(s.selectedType)
    ensures r.classification == Some(c) && OwnerType(c) == r.selectedType
    ensures r.account == s.account && r.balance == s.balance
  {
    ClassificationMapPartition(s.selectedType, c);
    s.(classification := Some(c))
  }

  /** The final-accounts category the dialog derives: revenue and expense only, by the classification's name. */
  function DerivedCategory(k: AccountType, c: Classification): (r: Option<Category>)
    ensures r.Some? <==> k == Revenue || k == Expense
    ensures r == Some(Indirect) ==> !Contains(ClassificationName(c), "DIRECT")
  {
    if k == Revenue || k == Expense then
      Some(if Contains(ClassificationName(c), "DIRECT") then Direct else Indirect)
    else None
  }

  /**
   * Every revenue or expense classification's name contains "DIRECT",
   * the indirect ones included, so the dialog always derives the direct
   * category for them.
   */
  lemma DerivedCategoryIsAlwaysDirect(k: AccountType, c: Classification)
    requires k == Revenue || k == Expense
    requires c in ClassificationsOf(k)
    ensures DerivedCategory(k, c) == Some(Direct)
  {
    var name := ClassificationName(c);
    var at := if c == IndirectRevenue || c == IndirectExpense then 2 else 0;
    assert name[at..at + 6] == "DIRECT";
    ContainsWitness(name, "DIRECT", at);
  }

  /** The change the dialog saves: type, classification and category, nothing else. */
  function ProfilePatch(k: AccountType, c: Classification): (p: AccountPatch)
    ensures p.name.None? && p.code.None?
    ensures p.kind == Some(k) && p.classification == Some(c) && p.category == Some(DerivedCategory(k, c))
  {
    AccountPatch(None, None, Some(k), Some(c), Some(DerivedCategory(k, c)))
  }

  /** Saving a profile keeps every account's id, name and code, and touches only the account with the id. */
  lemma ProfileUpdateKeepsIdentity(accounts: seq<Account>, id: string, k: AccountType, c: Classification, i: nat)
    requires i < |accounts|
    ensures var r := UpdateAccounts(accounts, id, ProfilePatch(k, c))[i];
      r.id == accounts[i].id && r.name == accounts[i].name && r.code == accounts[i].code
      && (accounts[i].id != id ==> r == accounts[i])
      && (accounts[i].id == id ==> r.kind == k && r.classification == c && r.category == DerivedCategory(k, c))
  {
  }

  /** `handleUpdate`: only with an account loaded and a classification chosen. */
  method HandleUpdate(store: Store, s: ModalState) returns (updated: bool)
    modifies store
    ensures updated <==> s.account.Some? && s.classification.Some?
    ensures !updated ==> store.State() == old(store.State())
    ensures updated ==> store.State() == old(store.State()).(accounts :=
      UpdateAccounts(old(store.accounts), s.account.value.id, ProfilePatch(s.selectedType, s.classification.value)))
  {
    updated := false;
    if s.account.Some? && s.classification.Some? {
      store.UpdateAccount(s.account.value.id, ProfilePatch(s.selectedType, s.classification.value));
      updated := true;
    }
  }
}
