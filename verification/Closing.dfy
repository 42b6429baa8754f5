/** Closing every open item under its own index, one after the other. */
module Closing {
  import opened Text
  import opened Protocol
  import opened TranslatorSpec
  import opened Chunking
  import opened Ledger
  import opened Lifecycle
  import opened Terminal

  ghost predicate ItemClosing(st: State, b: Book, i: nat, p: nat)
    requires i < |st.items|
  {
    var item, k := st.items[i], IndexOf(st, i);
    && item.id in st.indexes && !item.Reasoning?
    && k < st.next && st.thinking.index != Some(k) && st.msg.index != Some(k)
    && if i < p || IsDone(item) then k in b.closed && b.closed[k] == AsCompleted(item)
       else IsOpen(b, k, item.id) && PiecesAt(b, k) == Content(item)
  }

  ghost predicate Distinct(st: State) {
    forall i, j :: 0 <= i < j < |st.items| ==> st.items[i].id != st.items[j].id && IndexOf(st, i) != IndexOf(st, j)
  }

  function ClosedText(st: State): Item {
    Message(st.msg.itemId.GetOr(""), Status.Completed, Some(st.msg.text))
  }

  ghost predicate TextClosed(st: State, b: Book) {
    && (st.msg.itemId.Some? <==> st.msg.index.Some?)
    && (st.msg.index.Some? ==>
          && st.msg.index.value < st.next && st.msg.index != st.thinking.index
          && st.msg.index.value in b.closed && b.closed[st.msg.index.value] == ClosedText(st))
  }

  /** A message still open from `p` on is the compaction, whole. */
  ghost predicate CompactionOpenFrom(st: State, p: nat) {
    forall i :: p <= i < |st.items| ==>
      && (st.items[i].Message? && !IsDone(st.items[i]) ==>
            && st.cmp.itemId == Some(st.items[i].id) && st.cmp.index == Some(IndexOf(st, i))
            && Content(st.items[i]) == st.cmp.text)
      && (st.cmp.itemId == Some(st.items[i].id) ==> st.items[i].Message?)
  }

  ghost predicate ItemsClosing(st: State, b: Book, p: nat) {
    forall i :: 0 <= i < |st.items| ==> ItemClosing(st, b, i, p)
  }

  ghost predicate Closing(st: State, b: Book, p: nat) {
    && b.ok
    && ItemsClosing(st, b, p)
    && Distinct(st)
    && TextClosed(st, b) && ThinkingLinked(st, b)
    && CompactionOpenFrom(st, p) && ToolsLinked(st)
    && Covered(st, b)
  }

  lemma FindAt(st: State, i: nat)
    requires Distinct(st) && i < |st.items|
    ensures FindItem(st.items, st.items[i].id) == Some(i)
  {
    var k := FindItem(st.items, st.items[i].id).value;
  }

  /** The message, if there is one, is closed first. */
  lemma TextCloses(st: State, b: Book)
    requires Linked(st, b)
    ensures var r := CloseText(st); var b1 := Observe(b, r.out);
      && r.state == st.(sequence := r.state.sequence)
      && b1 == if st.msg.index.None? then b
               else b.(open := b.open - {st.msg.index.value}, closed := b.closed[st.msg.index.value := ClosedText(st)])
  {
    hide ItemsLinked, ThinkingLinked, CompactionLinked, ToolsLinked, Covered, Frames;
    var r := CloseText(st);
    if st.msg.itemId.Some? {
      var itemId, k := st.msg.itemId.value, st.msg.index.value;
      ObserveThree(b, st, OutputTextDone(itemId, k, st.msg.text),
                   PartDone(itemId, k, st.msg.text), ItemDone(k, ClosedText(st)));
    }
  }

  lemma StartsClosing(st: State, b: Book)
    requires Linked(st, b)
    ensures var r := CloseText(st); Closing(r.state, Observe(b, r.out), 0)
  {
    hide Covered, Observe, CompactionLinked;
    var r := CloseText(st);
    var b1 := Observe(b, r.out);
    TextCloses(st, b);
    forall i | 0 <= i < |st.items| ensures ItemClosing(r.state, b1, i, 0) {
      assert ItemLinked(st, b, i);
    }
    forall i, j | 0 <= i < j < |r.state.items|
      ensures r.state.items[i].id != r.state.items[j].id && IndexOf(r.state, i) != IndexOf(r.state, j)
    {
      assert IndexOf(st, i) != IndexOf(st, j);
    }
    CompactionOpens(st, b);
    CoveredAfterText(st, b, r.state, b1);
  }

  lemma CoveredAfterText(st: State, b: Book, st1: State, b1: Book)
    requires Covered(st, b) && TextLinked(st, b)
    requires st1 == st.(sequence := st1.sequence)
    requires b1 == if st.msg.index.None? then b
               else b.(open := b.open - {st.msg.index.value}, closed := b.closed[st.msg.index.value := ClosedText(st)])
    ensures Covered(st1, b1)
  {
    forall j | j in b1.open || j in b1.closed ensures j < st1.next && Owned(st1, j) {
      KeepsOwner(st, st1, j);
    }
  }

  lemma CompactionOpens(st: State, b: Book)
    requires ItemsLinked(st, b) && CompactionLinked(st)
    ensures CompactionOpenFrom(st, 0)
  {
    forall i | 0 <= i < |st.items|
      ensures st.items[i].Message? && !IsDone(st.items[i]) ==>
        && st.cmp.itemId == Some(st.items[i].id) && st.cmp.index == Some(IndexOf(st, i))
        && Content(st.items[i]) == st.cmp.text
      ensures st.cmp.itemId == Some(st.items[i].id) ==> st.items[i].Message?
    {
      FindDistinct(st, b, i);
    }
  }

  /** One item's turn: its book entry moves from open to closed. */
  lemma ItemCloses(st: State, b: Book, st1: State, b1: Book, p: nat)
    requires Closing(st, b, p) && p < |st.items| == |st1.items| && !IsDone(st.items[p])
    requires st1 == st.(items := st.items[p := st1.items[p]], sequence := st1.sequence)
    requires SameKind(st.items[p], st1.items[p])
    requires var k := IndexOf(st, p);
      b1 == b.(open := b.open - {k}, closed := b.closed[k := AsCompleted(st1.items[p])])
    ensures Closing(st1, b1, p + 1)
  {
    var k := IndexOf(st, p);
    assert ItemClosing(st, b, p, p);
    OtherItemsStay(st, b, st1, b1, p);
    SidesStay(st, b, st1, b1, k);
    ToolsKept(st, st1);
    CoveredCloses(st, b, st1, b1, k);
  }

  lemma OtherItemsStay(st: State, b: Book, st1: State, b1: Book, p: nat)
    requires Closing(st, b, p) && p < |st.items| == |st1.items|
    requires st1 == st.(items := st.items[p := st1.items[p]], sequence := st1.sequence)
    requires SameKind(st.items[p], st1.items[p]) && !st1.items[p].Reasoning?
    requires var k := IndexOf(st, p);
      b1 == b.(open := b.open - {k}, closed := b.closed[k := AsCompleted(st1.items[p])])
    ensures ItemsClosing(st1, b1, p + 1)
    ensures Distinct(st1)
  {
    hide Covered, TextClosed, ThinkingLinked, CompactionOpenFrom, ToolsLinked;
    var q := p + 1;
    assert ItemClosing(st, b, p, p);
    forall i | 0 <= i < |st1.items| ensures ItemClosing(st1, b1, i, q) {
      assert ItemClosing(st, b, i, p);
      if i < p {
        assert IndexOf(st, i) != IndexOf(st, p);
      } else if p < i {
        assert IndexOf(st, p) != IndexOf(st, i);
      }
    }
    forall i, j | 0 <= i < j < |st1.items|
      ensures st1.items[i].id != st1.items[j].id && IndexOf(st1, i) != IndexOf(st1, j)
    {
      assert IndexOf(st, i) != IndexOf(st, j);
    }
  }

  lemma SidesStay(st: State, b: Book, st1: State, b1: Book, k: nat)
    requires TextClosed(st, b) && ThinkingLinked(st, b)
    requires st1.msg == st.msg && st1.thinking == st.thinking && st1.id == st.id && st1.next == st.next
    requires st.msg.index != Some(k)
    requires b1.reasoning == b.reasoning && b1.pieces == b.pieces
    requires forall j :: j != k && j in b.closed ==> j in b1.closed && b1.closed[j] == b.closed[j]
    ensures TextClosed(st1, b1) && ThinkingLinked(st1, b1)
  {}

  lemma CoveredCloses(st: State, b: Book, st1: State, b1: Book, k: nat)
    requires Covered(st, b) && k in b.open && k !in b.closed
    requires st1.next == st.next && st1.thinking == st.thinking && st1.msg == st.msg
    requires |st1.items| == |st.items|
    requires forall i :: 0 <= i < |st.items| ==>
      IndexOf(st1, i) == IndexOf(st, i) && st1.items[i].id == st.items[i].id
    requires b1.next == b.next && b1.open == b.open - {k} && b1.closed.Keys == b.closed.Keys + {k}
    ensures Covered(st1, b1)
  {
    forall j | j in b1.open || j in b1.closed ensures j < st1.next && Owned(st1, j) {
      KeepsOwner(st, st1, j);
    }
  }

  lemma DoneItemStep(st: State, b: Book, p: nat)
    requires Closing(st, b, p) && p < |st.items| && IsDone(st.items[p])
    ensures Closing(st, b, p + 1)
  {
    var q := p + 1;
    forall i | 0 <= i < |st.items| ensures ItemClosing(st, b, i, q) {
      assert ItemClosing(st, b, i, p);
    }
  }

  lemma CompactionItemStep(st: State, b: Book, p: nat)
    requires Closing(st, b, p) && p < |st.items| && !IsDone(st.items[p])
    requires st.cmp.itemId == Some(st.items[p].id)
    ensures var r := CloseCompaction(st);
      && Closing(r.state, Observe(b, r.out), p + 1)
      && r.state.items == st.items[p := r.state.items[p]]
  {
    hide Covered, FindItem, TextClosed;
    var item, k, text, r := st.items[p], IndexOf(st, p), st.cmp.text, CloseCompaction(st);
    assert ItemClosing(st, b, p, p);
    FindAt(st, p);
    var closed := WithText(AsCompleted(item), text);
    ObserveThree(b, r.state.(sequence := st.sequence), OutputTextDone(item.id, k, text),
                 PartDone(item.id, k, text), ItemDone(k, closed));
    ItemCloses(st, b, r.state, Observe(b, r.out), p);
  }

  lemma ToolItemStep(st: State, b: Book, p: nat)
    requires Closing(st, b, p) && p < |st.items| && !IsDone(st.items[p])
    requires st.cmp.itemId != Some(st.items[p].id)
    ensures var r := CloseItem(st, st.items[p], p);
      Closing(r.state, Observe(b, r.out), p + 1) && r.state.items == st.items
  {
    hide Covered;
    var item, k, r := st.items[p], IndexOf(st, p), CloseItem(st, st.items[p], p);
    assert ItemClosing(st, b, p, p);
    assert item.FunctionCall?;
    assert OpenItemIndex(st, item, p) == k;
    ObserveTwo(b, st, ArgumentsDone(item.id, k, item.arguments), ItemDone(k, AsCompleted(item)));
    assert st.items[p := item] == st.items;
    ItemCloses(st, b, r.state, Observe(b, r.out), p);
  }

  lemma CloseItemStep(st: State, b: Book, p: nat)
    requires Closing(st, b, p) && p < |st.items|
    ensures var r := CloseItem(st, st.items[p], p);
      && Closing(r.state, Observe(b, r.out), p + 1)
      && |r.state.items| == |st.items|
      && (forall i :: p < i < |st.items| ==> r.state.items[i] == st.items[i])
  {
    if IsDone(st.items[p]) {
      DoneItemStep(st, b, p);
    } else if st.cmp.itemId == Some(st.items[p].id) {
      CompactionItemStep(st, b, p);
    } else {
      ToolItemStep(st, b, p);
    }
  }

  lemma {:induction false} CloseFromStep(st: State, b: Book, items: seq<Item>, p: nat)
    requires Closing(st, b, p) && p <= |items| == |st.items|
    requires forall i :: p <= i < |items| ==> items[i] == st.items[i]
    ensures var r := CloseItemsFrom(st, items, p);
      |r.state.items| == |items| && Closing(r.state, Observe(b, r.out), |items|)
    decreases |items| - p
  {
    if p < |items| {
      var one := CloseItem(st, items[p], p);
      CloseItemStep(st, b, p);
      CloseFromStep(one.state, Observe(b, one.out), items, p + 1);
      ObserveThen(b, one.out, CloseItemsFrom(one.state, items, p + 1).out);
    }
  }

  // ---------------------------------------------------------------- everything closed

  ghost predicate AllClosed(st: State, b: Book) {
    Closing(st, b, |st.items|)
  }

  lemma NothingOpen(st: State, b: Book)
    requires AllClosed(st, b)
    ensures b.open == map[]
  {
    forall k ensures k !in b.open {
      if 0 <= k < st.next && Owned(st, k) && st.msg.index != Some(k) {
        var i :| 0 <= i < |st.items| && IndexOf(st, i) == k;
        assert ItemClosing(st, b, i, |st.items|);
      }
    }
  }

  lemma CloseAllStep(st: State, b: Book)
    requires Linked(st, b)
    ensures var r := CloseOpenItems(st); AllClosed(r.state, Observe(b, r.out))
  {
    StartsClosing(st, b);
    var text := CloseText(st);
    CloseFromStep(text.state, Observe(b, text.out), text.state.items, 0);
    ObserveThen(b, text.out, CloseItemsFrom(text.state, text.state.items, 0).out);
  }
}
