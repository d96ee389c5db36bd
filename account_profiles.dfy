/**
 * The account directory: each account's balance, the search over names
 * and codes, and the balance as displayed.
 */
module AccountProfiles {
  import opened Model
  import opened Journal
  import opened JsText

  /**
   * `getBalance`: the nested fold over the journal. The account type it
   * receives plays no part in the result.
   */
  method GetBalance(entries: seq<JournalEntry>, accountId: string, kind: AccountType) returns (bal: real)
    ensures bal == Balance(entries, accountId)
    ensures !HasLine(entries, accountId) ==> bal == 0.0
  {
    var touched;
    bal, touched := FoldBalance(entries, accountId);
    if !touched {
      UntouchedBalanceZero(entries, accountId);
    }
  }

  /** The balance is shown without its sign. */
  function DisplayedBalance(bal: real): (d: real)
    ensures d >= 0.0 && (d == bal || d == -bal)
  {
    Abs(bal)
  }

  /** Accounts with opposite balances are displayed alike. */
  lemma DisplayHidesSide(bal: real)
    ensures DisplayedBalance(bal) == DisplayedBalance(-bal)
  {
  }

  /** `filteredAccounts`: the name contains the term ignoring case, or the code contains it as typed. */
  function FilteredAccounts(accounts: seq<Account>, term: string): (r: seq<Account>)
    ensures |r| <= |accounts|
    ensures forall a :: a in r <==> a in accounts && MatchesSearch(a.name, a.code, term)
  {
    if accounts == [] then []
    else
      (if MatchesSearch(accounts[0].name, accounts[0].code, term) then [accounts[0]] else [])
        + FilteredAccounts(accounts[1..], term)
  }

  /** An empty search keeps the directory whole and in order. */
  lemma {:induction false} EmptySearchKeepsAll(accounts: seq<Account>)
    ensures FilteredAccounts(accounts, "") == accounts
    decreases |accounts|
  {
    if accounts != [] {
      EmptySearchMatches(accounts[0].name, accounts[0].code);
      EmptySearchKeepsAll(accounts[1..]);
    }
  }
}
