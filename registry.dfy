/**
 * The chart of accounts: the default accounts a fresh store holds, how a
 * new account gets its code, the case-insensitive lookup by name, and
 * the patch and removal operations on the account list.
 */
module Registry {
  import opened Model
  import opened JsText

  function Acc(id: string, code: string, name: string, kind: AccountType, cls: Classification, cat: Option<Category>): Account {
    Account(id, code, name, kind, cls, cat)
  }

  /** `DEFAULT_ACCOUNTS`: the nine accounts of a fresh store. */
  function DefaultAccounts(): (r: seq<Account>)
    ensures |r| == 9
    ensures forall i :: 0 <= i < |r| ==> r[i].classification in ClassificationsOf(r[i].kind)
  {
    [ Acc("1", "1001", "Cash A/c", Asset, CurrentAsset, None),
      Acc("2", "1002", "Bank A/c", Asset, CurrentAsset, None),
      Acc("3", "2001", "Capital A/c", Equity, OwnerCapital, None),
      Acc("4", "3001", "Sales A/c", Revenue, DirectRevenue, Some(Direct)),
      Acc("5", "4001", "Purchase A/c", Expense, DirectExpense, Some(Direct)),
      Acc("6", "1003", "Stock A/c", Asset, CurrentAsset, Some(Direct)),
      Acc("8", "3002", "Sales Return A/c", Expense, DirectExpense, Some(Direct)),
      Acc("9", "4003", "Purchase Return A/c", Revenue, DirectRevenue, Some(Direct)),
      Acc("10", "2002", "Drawings A/c", Equity, OwnerDrawings, None) ]
  }

  /** The default accounts carry distinct codes. */
  lemma DefaultCodesDistinct()
    ensures forall i, j :: 0 <= i < j < |DefaultAccounts()| ==> DefaultAccounts()[i].code != DefaultAccounts()[j].code
  {
    var r := DefaultAccounts();
    forall i, j | 0 <= i < j < |r|
      ensures r[i].code != r[j].code
    {
      assert r[i].code[0] != r[j].code[0] || r[i].code[3] != r[j].code[3];
    }
  }

  /**
   * The classifications the account-profile editor offers for each type,
   * in the order it lists them.
   */
  function ClassificationsOf(t: AccountType): seq<Classification> {
    match t
    case Asset => [SundryDebtor, IntangibleAsset, TangibleAsset, CurrentAsset, Investment, Advances]
    case Liability => [Loans, SundryCreditor, OutstandingExp, SundryLiability]
    case Equity => [OwnerCapital, OwnerDrawings]
    case Revenue => [DirectRevenue, IndirectRevenue]
    case Expense => [DirectExpense, IndirectExpense]
  }

  /** The leading digit of a new account's code. */
  function CodePrefix(t: AccountType): char {
    match t
    case Asset => '1'
    case Liability => '2'
    case Equity => '2'
    case Revenue => '3'
    case Expense => '4'
  }

  /** Liabilities and equity share a prefix; every other pair of types is told apart. */
  lemma CodePrefixClashes(t: AccountType, u: AccountType)
    ensures CodePrefix(t) == CodePrefix(u) <==> t == u || (t in {Liability, Equity} && u in {Liability, Equity})
  {
  }

  /**
   * `floor(100 + random * 899)` with the random draw reduced to an integer:
   * a number from 100 to 998.
   */
  function CodeNumber(draw: int): (n: nat)
    ensures 100 <= n <= 998
  {
    100 + draw % 899
  }

  function DigitChar(d: nat): char
    requires d < 10
  {
    ('0' as int + d) as char
  }

  function DigitValue(c: char): int {
    c as int - '0' as int
  }

  predicate IsDigit(c: char) {
    '0' <= c <= '9'
  }

  /** The decimal spelling of a three-digit number. */
  function ThreeDigits(n: nat): (s: string)
    requires 100 <= n <= 999
    ensures |s| == 3 && forall i :: 0 <= i < 3 ==> IsDigit(s[i])
  {
    [DigitChar(n / 100), DigitChar(n / 10 % 10), DigitChar(n % 10)]
  }

  /** Reading the three digits back gives the number. */
  lemma ThreeDigitsValue(n: nat)
    requires 100 <= n <= 999
    ensures var s := ThreeDigits(n); 100 * DigitValue(s[0]) + 10 * DigitValue(s[1]) + DigitValue(s[2]) == n
  {
  }

  /**
   * `createAccount`'s record: the type's prefix and a random three-digit
   * number as the code, the trimmed name, the given id, type,
   * classification and category.
   */
  function NewAccount(id: string, name: string, kind: AccountType, cls: Classification, cat: Option<Category>, draw: int): (r: Account)
    ensures r.id == id && r.name == Trim(name) && r.kind == kind && r.classification == cls && r.category == cat
    ensures |r.code| == 4 && r.code[0] == CodePrefix(kind)
    ensures forall i :: 0 <= i < 4 ==> IsDigit(r.code[i])
  {
    Account(id, [CodePrefix(kind)] + ThreeDigits(CodeNumber(draw)), Trim(name), kind, cls, cat)
  }

  /** The code of a new account spells its prefix and the drawn number. */
  lemma NewAccountCode(id: string, name: string, kind: AccountType, cls: Classification, cat: Option<Category>, draw: int)
    ensures var c := NewAccount(id, name, kind, cls, cat, draw).code;
      c[0] == CodePrefix(kind) && 100 * DigitValue(c[1]) + 10 * DigitValue(c[2]) + DigitValue(c[3]) == CodeNumber(draw)
  {
    var c := NewAccount(id, name, kind, cls, cat, draw).code;
    ThreeDigitsValue(CodeNumber(draw));
    assert c[1..] == ThreeDigits(CodeNumber(draw));
  }

  /** The first element satisfying `p`, as `Array.prototype.find` returns it. */
  function Find(accounts: seq<Account>, p: Account -> bool): (r: Option<Account>)
    ensures r.Some? ==> exists i :: 0 <= i < |accounts| && accounts[i] == r.value && p(r.value) &&
                          forall j :: 0 <= j < i ==> !p(accounts[j])
    ensures r.None? <==> forall i :: 0 <= i < |accounts| ==> !p(accounts[i])
  {
    if accounts == [] then None
    else if p(accounts[0]) then Some(accounts[0])
    else
      var r := Find(accounts[1..], p);
      assert forall i :: 1 <= i < |accounts| ==> accounts[1..][i - 1] == accounts[i];
      r
  }

  /** The lookup `getAccountByName` performs: names compared lower-cased, the query trimmed. */
  predicate NameMatches(a: Account, query: string) {
    Lower(a.name) == Lower(Trim(query))
  }

  /** `getAccountByName`. */
  function FindByName(accounts: seq<Account>, query: string): (r: Option<Account>)
    ensures r.Some? ==> r.value in accounts && NameMatches(r.value, query)
    ensures r.None? <==> forall a :: a in accounts ==> !NameMatches(a, query)
  {
    Find(accounts, (a: Account) => NameMatches(a, query))
  }

  /** `accounts.find(a => a.name === name)`: the exact-name lookup. */
  function FindNamed(accounts: seq<Account>, name: string): (r: Option<Account>)
    ensures r.Some? ==> r.value in accounts && r.value.name == name
    ensures r.None? <==> forall a :: a in accounts ==> a.name != name
  {
    Find(accounts, (a: Account) => a.name == name)
  }

  /** `accounts.find(a => a.id === id)`. */
  function FindById(accounts: seq<Account>, id: string): (r: Option<Account>)
    ensures r.Some? ==> r.value in accounts && r.value.id == id
    ensures r.None? <==> forall a :: a in accounts ==> a.id != id
  {
    Find(accounts, (a: Account) => a.id == id)
  }

  /** An exactly named account is also found by the case-insensitive lookup. */
  lemma FindByNameAfterTrim(accounts: seq<Account>, name: string)
    requires FindNamed(accounts, name).Some? && Trim(name) == name
    ensures FindByName(accounts, name).Some?
  {
    var a := FindNamed(accounts, name).value;
    assert NameMatches(a, name);
  }

  /**
   * A `Partial<Account>` as the editors pass it: each field present or
   * absent; the category may be present and explicitly undefined.
   */
  datatype AccountPatch = AccountPatch(
    name: Option<string>,
    code: Option<string>,
    kind: Option<AccountType>,
    classification: Option<Classification>,
    category: Option<Option<Category>>)

  function Pick<T>(o: Option<T>, d: T): T {
    if o.Some? then o.value else d
  }

  /** `{ ...a, ...updates }`: present fields overwrite, absent ones are kept. */
  function ApplyPatch(a: Account, p: AccountPatch): (r: Account)
    ensures r.id == a.id
    ensures p.name.None? ==> r.name == a.name
    ensures p.code.None? ==> r.code == a.code
    ensures p.kind.None? ==> r.kind == a.kind
    ensures p.classification.None? ==> r.classification == a.classification
    ensures p.category.None? ==> r.category == a.category
  {
    Account(a.id, Pick(p.code, a.code), Pick(p.name, a.name), Pick(p.kind, a.kind),
      Pick(p.classification, a.classification), Pick(p.category, a.category))
  }

  /** Applying the same patch twice is the same as applying it once. */
  lemma ApplyPatchIdempotent(a: Account, p: AccountPatch)
    ensures ApplyPatch(ApplyPatch(a, p), p) == ApplyPatch(a, p)
  {
  }

  /** The empty patch changes nothing. */
  lemma ApplyEmptyPatch(a: Account)
    ensures ApplyPatch(a, AccountPatch(None, None, None, None, None)) == a
  {
  }

  /** `updateAccount`: patch every account with the id, keep every other. */
  function UpdateAccounts(accounts: seq<Account>, id: string, p: AccountPatch): (r: seq<Account>)
    ensures |r| == |accounts|
    ensures forall i :: 0 <= i < |r| ==> r[i].id == accounts[i].id
    ensures forall i :: 0 <= i < |r| && accounts[i].id != id ==> r[i] == accounts[i]
    ensures forall i :: 0 <= i < |r| && accounts[i].id == id ==> r[i] == ApplyPatch(accounts[i], p)
  {
    if accounts == [] then []
    else [if accounts[0].id == id then ApplyPatch(accounts[0], p) else accounts[0]] + UpdateAccounts(accounts[1..], id, p)
  }

  /** `deleteAccount`: drop every account with the id, keep the rest in order. */
  function RemoveAccount(accounts: seq<Account>, id: string): (r: seq<Account>)
    ensures |r| <= |accounts|
  {
    if accounts == [] then []
    else (if accounts[0].id == id then [] else [accounts[0]]) + RemoveAccount(accounts[1..], id)
  }

  /** An account survives the removal exactly when its id differs. */
  lemma {:induction false} RemoveAccountMembers(accounts: seq<Account>, id: string, a: Account)
    ensures a in RemoveAccount(accounts, id) <==> a in accounts && a.id != id
    decreases |accounts|
  {
    if accounts != [] {
      RemoveAccountMembers(accounts[1..], id, a);
      assert accounts == [accounts[0]] + accounts[1..];
    }
  }

  /** Removing twice removes no more than removing once. */
  lemma {:induction false} RemoveAccountIdempotent(accounts: seq<Account>, id: string)
    ensures RemoveAccount(RemoveAccount(accounts, id), id) == RemoveAccount(accounts, id)
    decreases |accounts|
  {
    if accounts != [] {
      var rest := RemoveAccount(accounts[1..], id);
      RemoveAccountIdempotent(accounts[1..], id);
      if accounts[0].id != id {
        var r := [accounts[0]] + rest;
        assert RemoveAccount(accounts, id) == r;
        assert r[1..] == rest;
        assert RemoveAccount(r, id) == [accounts[0]] + RemoveAccount(rest, id);
      } else {
        assert RemoveAccount(accounts, id) == [] + rest;
        assert [] + rest == rest;
      }
    }
  }
}
