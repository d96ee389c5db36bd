/**
 * The journal editor: a bounded undo/redo history of the working entry,
 * the running debit and credit totals and the balanced flag, adding and
 * removing lines, the account-type suggestion offered when a line names
 * an unknown account, and the post with its error list.
 */
module JournalIde {
  import opened Model
  import opened Journal
  import opened JsText
  import opened Engine

  /** The most states the history keeps. */
  const Limit: nat := 50

  /**
   * The history after pushing `s`: the states up to the current one, then
   * `s`, keeping only the newest `Limit`.
   */
  function Pushed<T>(states: seq<T>, index: nat, s: T): (r: seq<T>)
    requires index < |states| <= Limit
    ensures 1 <= |r| <= Limit && r[|r| - 1] == s
    ensures |r| == if index + 2 > Limit then Limit else index + 2
    ensures var full := states[..index + 1] + [s]; r == full[|full| - |r|..]
  {
    var full := states[..index + 1] + [s];
    if |full| > Limit then full[1..] else full
  }

  /** A push onto a history that is not full drops nothing before the current state. */
  lemma PushedKeepsPast<T>(states: seq<T>, index: nat, s: T)
    requires index < |states| <= Limit && index + 2 <= Limit
    ensures Pushed(states, index, s)[..index + 1] == states[..index + 1]
  {
  }

  /** After a push, the state before the new one is the state that was current. */
  lemma PushedKeepsCurrent<T>(states: seq<T>, index: nat, s: T)
    requires index < |states| <= Limit
    ensures var r := Pushed(states, index, s); |r| >= 2 && r[|r| - 2] == states[index]
  {
    var full := states[..index + 1] + [s];
    assert full[|full| - 2] == states[index];
  }

  /** `useHistory`: the states, oldest first, and the index of the current one. */
  class History<T(==)> {
    var states: seq<T>
    var index: nat

    ghost predicate Valid()
      reads this
    {
      1 <= |states| <= Limit && index < |states|
    }

    constructor (initial: T)
      ensures Valid() && states == [initial] && index == 0
    {
      states := [initial];
      index := 0;
    }

    function Current(): T
      reads this
      requires Valid()
    {
      states[index]
    }

    function CanUndo(): bool
      reads this
    {
      index > 0
    }

    function CanRedo(): bool
      reads this
    {
      index < |states| - 1
    }

    /** Records a new working state, unless it equals the current one. */
    method SetState(s: T)
      requires Valid()
      modifies this
      ensures Valid() && Current() == s
      ensures s == old(Current()) ==> states == old(states) && index == old(index)
      ensures s != old(Current()) ==> states == Pushed(old(states), old(index), s) && index == |states| - 1 && !CanRedo()
    {
      if s == states[index] {
        return;
      }
      var newHistory := states[..index + 1];
      newHistory := newHistory + [s];
      if |newHistory| > Limit {
        newHistory := newHistory[1..];
      }
      states := newHistory;
      index := |newHistory| - 1;
    }

    /** Steps back one state when there is one. */
    method Undo()
      requires Valid()
      modifies this
      ensures Valid() && states == old(states)
      ensures index == if old(CanUndo()) then old(index) - 1 else old(index)
      ensures old(CanUndo()) <==> index != old(index)
    {
      if index > 0 {
        index := index - 1;
      }
    }

    /** Steps forward one state when there is one. */
    method Redo()
      requires Valid()
      modifies this
      ensures Valid() && states == old(states)
      ensures index == if old(CanRedo()) then old(index) + 1 else old(index)
      ensures old(CanRedo()) <==> index != old(index)
    {
      if index < |states| - 1 {
        index := index + 1;
      }
    }

    /** Starts over from a single state. */
    method ResetHistory(s: T)
      modifies this
      ensures Valid() && states == [s] && index == 0
    {
      states := [s];
      index := 0;
    }
  }

  /** An undo followed by a redo comes back to the same state. */
  method UndoThenRedo<T>(h: History<T>)
    requires h.Valid() && h.CanUndo()
    modifies h
    ensures h.Valid() && h.states == old(h.states) && h.index == old(h.index)
    ensures h.Current() == old(h.Current())
  {
    h.Undo();
    h.Redo();
  }

  /** The editor's working state. */
  datatype Working = Working(lines: seq<JournalLine>, narration: string)

  /** The editor's balanced flag: the columns agree to within 0.01 and something is debited. */
  predicate IsBalanced(lines: seq<JournalLine>) {
    Abs(DebitTotal(lines) - CreditTotal(lines)) < 0.01 && DebitTotal(lines) > 0.0
  }

  /** An entry the editor shows as balanced is one `addEntry` accepts. */
  lemma EditorBalancedIsAccepted(lines: seq<JournalLine>)
    ensures IsBalanced(lines) ==> Balanced(lines)
  {
  }

  /** The editor refuses an entry with no debit even when `addEntry` would accept it. */
  lemma EmptyEntryRefused()
    ensures !IsBalanced([]) && Balanced([])
  {
  }

  lemma TotalsSnoc(lines: seq<JournalLine>, l: JournalLine)
    ensures DebitTotal(lines + [l]) == DebitTotal(lines) + (if l.side == Debit then l.amount else 0.0)
    ensures CreditTotal(lines + [l]) == CreditTotal(lines) + (if l.side == Credit then l.amount else 0.0)
  {
    assert (lines + [l])[..|lines|] == lines;
  }

  function Other(side: Side): Side {
    if side == Debit then Credit else Debit
  }

  function SideTotal(lines: seq<JournalLine>, side: Side): real {
    if side == Debit then DebitTotal(lines) else CreditTotal(lines)
  }

  /** `addLine`: a blank line on `side`, pre-filled with what that side is short of the other. */
  function AddLine(w: Working, side: Side, id: string): (r: Working)
    ensures r.narration == w.narration && |r.lines| == |w.lines| + 1 && r.lines[..|w.lines|] == w.lines
    ensures var l := r.lines[|w.lines|];
      l.id == id && l.side == side && l.accountId == "" && l.accountName == ""
      && l.amount == Max(0.0, SideTotal(w.lines, Other(side)) - SideTotal(w.lines, side))
  {
    var next := Max(0.0, SideTotal(w.lines, Other(side)) - SideTotal(w.lines, side));
    w.(lines := w.lines + [JournalLine(id, side, "", "", next)])
  }

  /**
   * The new line closes the gap: its side ends at least as large as the
   * other, and exactly level when it was short; the other side is unchanged.
   */
  lemma AddLineFillsShortfall(w: Working, side: Side, id: string)
    ensures var r := AddLine(w, side, id);
      SideTotal(r.lines, Other(side)) == SideTotal(w.lines, Other(side))
      && SideTotal(r.lines, side) == Max(SideTotal(w.lines, side), SideTotal(w.lines, Other(side)))
  {
    var r := AddLine(w, side, id);
    assert r.lines == w.lines + [r.lines[|w.lines|]];
    TotalsSnoc(w.lines, r.lines[|w.lines|]);
  }

  function LinesWithout(lines: seq<JournalLine>, id: string): (r: seq<JournalLine>)
    ensures |r| <= |lines|
    ensures forall j :: 0 <= j < |r| ==> r[j].id != id && r[j] in lines
    ensures forall l :: l in lines && l.id != id ==> l in r
  {
    if lines == [] then []
    else (if lines[0].id != id then [lines[0]] else []) + LinesWithout(lines[1..], id)
  }

  /** `removeLine`: lines with the id go, but only while more than two lines remain. */
  function RemoveLine(w: Working, id: string): (r: Working)
    ensures r.narration == w.narration
    ensures |w.lines| <= 2 ==> r == w
    ensures |w.lines| > 2 ==> r.lines == LinesWithout(w.lines, id)
  {
    if |w.lines| > 2 then w.(lines := LinesWithout(w.lines, id)) else w
  }

  predicate DistinctLineIds(lines: seq<JournalLine>) {
    forall j, k :: 0 <= j < k < |lines| ==> lines[j].id != lines[k].id
  }

  /** With distinct line ids, removing never leaves fewer than two lines. */
  lemma RemoveLineKeepsTwo(w: Working, id: string)
    requires DistinctLineIds(w.lines) && |w.lines| >= 2
    ensures |RemoveLine(w, id).lines| >= 2
    ensures |w.lines| > 2 ==> |RemoveLine(w, id).lines| >= |w.lines| - 1
  {
    if |w.lines| > 2 {
      AtMostOneRemoved(w.lines, id);
    }
  }

  lemma {:induction false} NoneRemoved(lines: seq<JournalLine>, id: string)
    requires forall j :: 0 <= j < |lines| ==> lines[j].id != id
    ensures LinesWithout(lines, id) == lines
    decreases |lines|
  {
    if lines != [] {
      var tail := lines[1..];
      assert forall j :: 0 <= j < |tail| ==> tail[j] == lines[j + 1];
      NoneRemoved(tail, id);
    }
  }

  lemma {:induction false} AtMostOneRemoved(lines: seq<JournalLine>, id: string)
    requires DistinctLineIds(lines)
    ensures |LinesWithout(lines, id)| >= |lines| - 1
    decreases |lines|
  {
    if lines != [] {
      var tail := lines[1..];
      assert forall j :: 0 <= j < |tail| ==> tail[j] == lines[j + 1];
      if lines[0].id == id {
        NoneRemoved(tail, id);
      } else {
        AtMostOneRemoved(tail, id);
      }
    }
  }

  /** `handleSelectAccount`: the line with the id takes the account's name and id. */
  function SelectAccount(w: Working, lineId: string, acc: Account): (r: Working)
    ensures r.narration == w.narration && |r.lines| == |w.lines|
    ensures forall j :: 0 <= j < |w.lines| ==>
      r.lines[j] == (if w.lines[j].id == lineId then w.lines[j].(accountName := acc.name, accountId := acc.id) else w.lines[j])
  {
    w.(lines := SelectInLines(w.lines, lineId, acc))
  }

  function SelectInLines(lines: seq<JournalLine>, lineId: string, acc: Account): (r: seq<JournalLine>)
    ensures |r| == |lines|
    ensures forall j :: 0 <= j < |lines| ==>
      r[j] == (if lines[j].id == lineId then lines[j].(accountName := acc.name, accountId := acc.id) else lines[j])
  {
    if lines == [] then []
    else
      var last := lines[|lines| - 1];
      SelectInLines(lines[..|lines| - 1], lineId, acc)
        + [if last.id == lineId then last.(accountName := acc.name, accountId := acc.id) else last]
  }

  /** Choosing an account never changes an amount or a side, so the totals stay put. */
  lemma {:induction false} SelectKeepsTotals(lines: seq<JournalLine>, lineId: string, acc: Account)
    ensures DebitTotal(SelectInLines(lines, lineId, acc)) == DebitTotal(lines)
    ensures CreditTotal(SelectInLines(lines, lineId, acc)) == CreditTotal(lines)
    decreases |lines|
  {
    if lines != [] {
      var init := lines[..|lines| - 1];
      var ri := SelectInLines(init, lineId, acc);
      assert SelectInLines(lines, lineId, acc)[..|init|] == ri;
      SelectKeepsTotals(init, lineId, acc);
    }
  }

  /** Whether some line's name, lower-cased, contains `word`. */
  predicate Mentions(lines: seq<JournalLine>, word: string) {
    exists j :: 0 <= j < |lines| && Contains(Lower(lines[j].accountName), word)
  }

  datatype Registration = Registration(lineId: string, name: string, suggestedType: AccountType, suggestedClass: Classification)

  /**
   * `getContextualMapping`: the type and classification suggested when
   * the line's account has to be registered, judged from the other lines.
   */
  function ContextualMapping(lines: seq<JournalLine>, line: JournalLine): (r: Registration)
    ensures r.lineId == line.id && r.name == line.accountName
    ensures r.suggestedClass == SundryCreditor <==> r.suggestedType == Liability
  {
    var others := LinesWithout(lines, line.id);
    var hasPurchase := Mentions(others, "purchase");
    var hasSales := Mentions(others, "sales");
    var hasPR := Mentions(others, "purchase return");
    var hasSR := Mentions(others, "sales return");
    if hasPurchase || hasSR then Registration(line.id, line.accountName, Liability, SundryCreditor)
    else if hasSales || hasPR then Registration(line.id, line.accountName, Asset, SundryDebtor)
    else Registration(line.id, line.accountName, Asset, CurrentAsset)
  }

  lemma {:induction false} ContainsPrefix(s: string, t: string, u: string)
    requires Contains(s, t + u)
    ensures Contains(s, t)
    decreases |s|
  {
    if StartsWith(s, t + u) {
      assert s[..|t|] == (t + u)[..|t|] == t;
    } else {
      ContainsPrefix(s[1..], t, u);
    }
  }

  /** A name mentioning "purchase return" also mentions "purchase", and likewise for sales. */
  lemma ReturnsMentionTheirBook(lines: seq<JournalLine>)
    ensures Mentions(lines, "purchase return") ==> Mentions(lines, "purchase")
    ensures Mentions(lines, "sales return") ==> Mentions(lines, "sales")
  {
    assert "purchase" + " return" == "purchase return";
    assert "sales" + " return" == "sales return";
    if Mentions(lines, "purchase return") {
      var j :| 0 <= j < |lines| && Contains(Lower(lines[j].accountName), "purchase return");
      ContainsPrefix(Lower(lines[j].accountName), "purchase", " return");
    }
    if Mentions(lines, "sales return") {
      var j :| 0 <= j < |lines| && Contains(Lower(lines[j].accountName), "sales return");
      ContainsPrefix(Lower(lines[j].accountName), "sales", " return");
    }
  }

  /**
   * As written, any other line mentioning "purchase return" already
   * mentions "purchase" and so takes the creditor branch: the debtor
   * branch's purchase-return test is never the one that decides.
   */
  lemma PurchaseReturnSuggestsCreditor(lines: seq<JournalLine>, line: JournalLine)
    requires Mentions(LinesWithout(lines, line.id), "purchase return")
    ensures ContextualMapping(lines, line).suggestedClass == SundryCreditor
  {
    ReturnsMentionTheirBook(LinesWithout(lines, line.id));
  }

  /** Whether some line mentions `word` but not `excluded`. */
  predicate MentionsOnly(lines: seq<JournalLine>, word: string, excluded: string) {
    exists j :: 0 <= j < |lines| && Contains(Lower(lines[j].accountName), word)
      && !Contains(Lower(lines[j].accountName), excluded)
  }

  /**
   * The suggestion with each book's returns told apart from the book
   * itself: purchases and sales returns point to a creditor, sales and
   * purchase returns to a debtor.
   */
  function CorrectedContextualMapping(lines: seq<JournalLine>, line: JournalLine): (r: Registration)
    ensures r.lineId == line.id && r.name == line.accountName
    ensures r.suggestedClass == SundryCreditor <==> r.suggestedType == Liability
  {
    var others := LinesWithout(lines, line.id);
    var hasPurchase := MentionsOnly(others, "purchase", "purchase return");
    var hasSales := MentionsOnly(others, "sales", "sales return");
    var hasPR := Mentions(others, "purchase return");
    var hasSR := Mentions(others, "sales return");
    if hasPurchase || hasSR then Registration(line.id, line.accountName, Liability, SundryCreditor)
    else if hasSales || hasPR then Registration(line.id, line.accountName, Asset, SundryDebtor)
    else Registration(line.id, line.accountName, Asset, CurrentAsset)
  }

  /** When the only book named on the other lines is a purchase return, the corrected suggestion is a debtor. */
  lemma CorrectedPurchaseReturnSuggestsDebtor(lines: seq<JournalLine>, line: JournalLine)
    requires Mentions(LinesWithout(lines, line.id), "purchase return")
    requires !MentionsOnly(LinesWithout(lines, line.id), "purchase", "purchase return")
    requires !Mentions(LinesWithout(lines, line.id), "sales return")
    ensures CorrectedContextualMapping(lines, line).suggestedClass == SundryDebtor
  {
  }

  /** The corrected and the as-written suggestions agree when no other line names a return. */
  lemma CorrectedAgreesWithoutReturns(lines: seq<JournalLine>, line: JournalLine)
    requires !Mentions(LinesWithout(lines, line.id), "purchase return")
    requires !Mentions(LinesWithout(lines, line.id), "sales return")
    ensures CorrectedContextualMapping(lines, line) == ContextualMapping(lines, line)
  {
    var others := LinesWithout(lines, line.id);
    assert MentionsOnly(others, "purchase", "purchase return") == Mentions(others, "purchase");
    assert MentionsOnly(others, "sales", "sales return") == Mentions(others, "sales");
  }

  datatype PostError = NarrationRequired | UndefinedAccountHead | Unbalanced(difference: real)

  predicate HasBlankAccount(lines: seq<JournalLine>) {
    exists j :: 0 <= j < |lines| && Trim(lines[j].accountName) == []
  }

  /** The errors `handlePost` reports, in the order it checks them. */
  function PostErrors(w: Working): (errors: seq<PostError>)
    ensures NarrationRequired in errors <==> Trim(w.narration) == []
    ensures UndefinedAccountHead in errors <==> HasBlankAccount(w.lines)
    ensures (exists d :: Unbalanced(d) in errors) <==> !IsBalanced(w.lines)
    ensures errors == [] <==> Trim(w.narration) != [] && !HasBlankAccount(w.lines) && IsBalanced(w.lines)
  {
    var unbalanced := if !IsBalanced(w.lines) then [Unbalanced(Abs(DebitTotal(w.lines) - CreditTotal(w.lines)))] else [];
    (if Trim(w.narration) == [] then [NarrationRequired] else [])
      + (if HasBlankAccount(w.lines) then [UndefinedAccountHead] else [])
      + unbalanced
  }

  /**
   * `handlePost`: with no errors the working entry goes to `addEntry`
   * under a fresh id and the given date. On success the handler resets the
   * history and then sets the blank entry; both updates are computed from
   * the history of the render that posted, and the later one wins, so the
   * blank entry is pushed after the posted one instead of replacing the
   * history, and an undo brings the posted entry back.
   */
  method HandlePost(store: Store, h: History<Working>, blank: Working, entryId: string, date: int)
    returns (errors: seq<PostError>, posted: bool)
    requires h.Valid()
    modifies store, h
    ensures errors == PostErrors(old(h.Current()))
    ensures posted <==> errors == []
    ensures !posted ==> store.State() == old(store.State()) && h.states == old(h.states) && h.index == old(h.index)
    ensures posted ==> (|store.entries| == |old(store.entries)| + 1 && store.entries[1..] == old(store.entries)
      && store.entries[0].lines == old(h.Current()).lines && store.entries[0].narration == old(h.Current()).narration
      && store.entries[0].date == date && store.entries[0].id == entryId)
    ensures posted && blank == old(h.Current()) ==> h.states == [blank] && h.index == 0
    ensures posted && blank != old(h.Current()) ==>
      h.states == Pushed(old(h.states), old(h.index), blank) && h.index == |h.states| - 1
    ensures posted && blank != old(h.Current()) ==> h.CanUndo() && h.states[h.index - 1] == old(h.Current())
    ensures h.Valid() && h.Current() == (if posted then blank else old(h.Current()))
    ensures old(store.Valid()) ==> store.Valid()
  {
    var w := h.Current();
    errors := PostErrors(w);
    posted := false;
    if errors == [] {
      EditorBalancedIsAccepted(w.lines);
      var success := store.AddEntry(JournalEntry(entryId, None, date, w.narration, w.lines, false));
      if success {
        if blank == w {
          h.ResetHistory(blank);
        } else {
          h.SetState(blank);
          PushedKeepsCurrent(old(h.states), old(h.index), blank);
        }
        posted := true;
      }
    }
  }
}
