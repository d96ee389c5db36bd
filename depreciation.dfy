/**
 * Depreciation: which accounts can be depreciated
 * (`getEligibleDepreciationAssets`) and the SLM/WDV calculation of the
 * depreciation manager.
 */
module Depreciation {
  import opened Model
  import opened Journal

  /** Lines of `lines` crediting account `id`, summed. */
  function CreditsTo(lines: seq<JournalLine>, id: string): real {
    if lines == [] then 0.0
    else
      var l := lines[|lines| - 1];
      CreditsTo(lines[..|lines| - 1], id) + (if l.accountId == id && l.side == Credit then l.amount else 0.0)
  }

  /** Depreciation charged so far: the credits to `id` in depreciation entries. */
  function AccumulatedDepreciation(entries: seq<JournalEntry>, id: string): real {
    if entries == [] then 0.0
    else
      var e := entries[|entries| - 1];
      AccumulatedDepreciation(entries[..|entries| - 1], id) + (if e.isDepreciationEntry then CreditsTo(e.lines, id) else 0.0)
  }

  /** An entry that is not a depreciation entry adds nothing to the accumulated depreciation. */
  lemma AccumulatedIgnoresOrdinaryEntry(entries: seq<JournalEntry>, e: JournalEntry, id: string)
    requires !e.isDepreciationEntry
    ensures AccumulatedDepreciation(entries + [e], id) == AccumulatedDepreciation(entries, id)
  {
    assert (entries + [e])[..|entries|] == entries;
  }

  datatype EligibleAsset = EligibleAsset(account: Account, currentBalance: real, cost: real, accumulatedDepreciation: real)

  /** The record built for one tangible asset. */
  function AssetRecord(a: Account, entries: seq<JournalEntry>): (x: EligibleAsset)
    ensures x.account == a && x.currentBalance == Balance(entries, a.id)
    ensures x.cost - x.accumulatedDepreciation == x.currentBalance
  {
    var bal := Balance(entries, a.id);
    var dep := AccumulatedDepreciation(entries, a.id);
    EligibleAsset(a, bal, bal + dep, dep)
  }

  predicate IsEligible(a: Account, entries: seq<JournalEntry>) {
    a.classification == TangibleAsset && Balance(entries, a.id) > 0.1
  }

  /** `getEligibleDepreciationAssets`: tangible assets with a debit balance above 0.1, in account order. */
  function EligibleAssets(accounts: seq<Account>, entries: seq<JournalEntry>): (r: seq<EligibleAsset>)
    ensures |r| <= |accounts|
  {
    if accounts == [] then []
    else
      var rest := EligibleAssets(accounts[1..], entries);
      if IsEligible(accounts[0], entries) then [AssetRecord(accounts[0], entries)] + rest else rest
  }

  /** Every record listed is an eligible account of the registry, with cost = balance + depreciation. */
  lemma {:induction false} EligibleSound(accounts: seq<Account>, entries: seq<JournalEntry>, i: nat)
    requires i < |EligibleAssets(accounts, entries)|
    ensures var x := EligibleAssets(accounts, entries)[i];
      x.account in accounts && IsEligible(x.account, entries) && x == AssetRecord(x.account, entries)
  {
    if IsEligible(accounts[0], entries) && i == 0 {
    } else if IsEligible(accounts[0], entries) {
      EligibleSound(accounts[1..], entries, i - 1);
    } else {
      EligibleSound(accounts[1..], entries, i);
    }
  }

  /** Every eligible account of the registry is listed. */
  lemma {:induction false} EligibleComplete(accounts: seq<Account>, entries: seq<JournalEntry>, a: Account)
    requires a in accounts && IsEligible(a, entries)
    ensures AssetRecord(a, entries) in EligibleAssets(accounts, entries)
  {
    if accounts[0] != a {
      EligibleComplete(accounts[1..], entries, a);
    }
  }

  /** Looks an eligible asset up by account id, as the selection does. */
  function FindAsset(assets: seq<EligibleAsset>, id: string): (r: Option<EligibleAsset>)
    ensures r.Some? ==> r.value in assets && r.value.account.id == id
    ensures r.None? ==> forall i :: 0 <= i < |assets| ==> assets[i].account.id != id
  {
    if assets == [] then None
    else if assets[0].account.id == id then Some(assets[0])
    else FindAsset(assets[1..], id)
  }

  datatype DepreciationMethod = SLM | WDV

  function MethodName(m: DepreciationMethod): string {
    match m
    case SLM => "SLM"
    case WDV => "WDV"
  }

  datatype Calculation = Calculation(amount: real, netValue: real)

  /** The base the rate applies to: original cost on a straight line, book value on a written-down value. */
  function DepreciationBase(asset: EligibleAsset, m: DepreciationMethod): real {
    if m == SLM then asset.cost else asset.currentBalance
  }

  /** `calculations`: the charge for the selected asset and the book value left after it. */
  function Calculate(active: Option<EligibleAsset>, m: DepreciationMethod, rate: real): (c: Calculation)
    ensures active.None? ==> c == Calculation(0.0, 0.0)
    ensures active.Some? ==> c.amount + c.netValue == active.value.currentBalance
    ensures active.Some? && rate == 0.0 ==> c.amount == 0.0
    ensures active.Some? && m == WDV ==> c.amount == (active.value.currentBalance * rate) / 100.0
    ensures active.Some? && m == SLM ==> c.amount == (active.value.cost * rate) / 100.0
  {
    match active
    case None => Calculation(0.0, 0.0)
    case Some(asset) =>
      var amount := (DepreciationBase(asset, m) * rate) / 100.0;
      Calculation(amount, asset.currentBalance - amount)
  }

  /**
   * Under WDV with a rate between 0 and 100 and a non-negative book
   * value, the charge never exceeds the book value, so what is left
   * stays between 0 and the book value.
   */
  lemma WdvStaysWithinBookValue(asset: EligibleAsset, rate: real)
    requires 0.0 <= rate <= 100.0 && asset.currentBalance >= 0.0
    ensures var c := Calculate(Some(asset), WDV, rate);
      0.0 <= c.amount <= asset.currentBalance && 0.0 <= c.netValue <= asset.currentBalance
  {
    var b := asset.currentBalance;
    var c := Calculate(Some(asset), WDV, rate);
    MulMonotone(b, rate, 100.0);
    MulMonotone(b, 0.0, rate);
    assert c.amount == (b * rate) / 100.0;
    assert 0.0 <= b * rate <= b * 100.0;
  }

  lemma MulMonotone(b: real, x: real, y: real)
    requires b >= 0.0 && x <= y
    ensures b * x <= b * y
  {
    assert b * y - b * x == b * (y - x);
  }

  /** Under SLM the charge is the rate applied to the asset's whole history: balance plus depreciation already charged. */
  lemma SlmChargesOriginalCost(asset: EligibleAsset, entries: seq<JournalEntry>, rate: real)
    requires asset == AssetRecord(asset.account, entries)
    ensures Calculate(Some(asset), SLM, rate).amount
      == ((Balance(entries, asset.account.id) + AccumulatedDepreciation(entries, asset.account.id)) * rate) / 100.0
  {
  }

  /** The rate input is clamped to the range 0..100. */
  function ClampRate(x: real): (r: real)
    ensures 0.0 <= r <= 100.0
    ensures 0.0 <= x <= 100.0 ==> r == x
    ensures x < 0.0 ==> r == 0.0
    ensures x > 100.0 ==> r == 100.0
  {
    Min(100.0, Max(0.0, x))
  }

  /** What the post button hands to the engine's `postDepreciation`. */
  datatype DepreciationRequest = DepreciationRequest(accountId: string, amount: real, date: int, narration: string)

  /** The narration; the rate's decimal rendering is taken as given. */
  function DepreciationNarration(name: string, rateText: string, m: DepreciationMethod): string {
    "Being depreciation charged on " + name + " @ " + rateText + "% p.a. using " + MethodName(m) + " method."
  }

  /** `handlePost`: nothing happens without a selected asset or while a post is in progress. */
  function HandlePost(active: Option<EligibleAsset>, isPosting: bool, m: DepreciationMethod, rate: real, rateText: string, date: int)
    : (r: Option<DepreciationRequest>)
    ensures r.None? <==> active.None? || isPosting
    ensures r.Some? ==> (r.value.accountId == active.value.account.id
      && r.value.amount == Calculate(active, m, rate).amount && r.value.date == date)
  {
    if active.None? || isPosting then None
    else Some(DepreciationRequest(active.value.account.id, Calculate(active, m, rate).amount, date,
      DepreciationNarration(active.value.account.name, rateText, m)))
  }
}
