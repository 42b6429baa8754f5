/** The terminal output is the closed items and the reasoning, in index order. */
module TerminalOutput {
  import opened Text
  import opened Protocol
  import opened TranslatorSpec
  import opened Chunking
  import opened Ledger
  import opened Lifecycle
  import opened Terminal
  import opened SortByIndex
  import opened Closing

  lemma {:induction false} ItemEntriesAt(st: State, p: nat, order: nat)
    requires p <= |st.items|
    ensures var es := ItemEntries(st, p, order);
      && |es| == |st.items| - p
      && forall i :: 0 <= i < |es| ==>
           es[i] == Entry(ItemIndex(st, st.items[p + i], p + i), order + i, AsCompleted(st.items[p + i]))
    decreases |st.items| - p
  {
    if p < |st.items| {
      ItemEntriesAt(st, p + 1, order + 1);
    }
  }

  lemma IndexKnown(st: State, b: Book, i: nat)
    requires AllClosed(st, b) && i < |st.items|
    ensures ItemIndex(st, st.items[i], i) == IndexOf(st, i) < st.next
  {
    hide Covered, ToolsLinked, TextClosed, ThinkingLinked, CompactionOpenFrom, Distinct, OpenItemIndex;
    assert ItemClosing(st, b, i, |st.items|);
  }

  lemma StoredEntries(st: State, b: Book, order: nat)
    requires AllClosed(st, b)
    ensures var es := ItemEntries(st, 0, order);
      && |es| == |st.items|
      && forall i :: 0 <= i < |es| ==>
           && es[i] == Entry(IndexOf(st, i), order + i, AsCompleted(st.items[i]))
           && IndexOf(st, i) < st.next
  {
    hide AllClosed, ItemEntries, ItemIndex, IndexOf, AsCompleted;
    ItemEntriesAt(st, 0, order);
    forall i | 0 <= i < |st.items| ensures ItemIndex(st, st.items[i], i) == IndexOf(st, i) < st.next {
      IndexKnown(st, b, i);
    }
  }

  lemma SideEntries(st: State, b: Book, order: nat)
    requires AllClosed(st, b)
    ensures var reasoning := ReasoningEntries(st);
      && |reasoning| <= 1
      && (|reasoning| == 1 ==>
            && reasoning[0].order == 0
            && Some(reasoning[0].index) == st.thinking.index && reasoning[0].index < st.next)
    ensures var text := TextEntries(st, order);
      && |text| == (if st.msg.itemId.Some? then 1 else 0)
      && (|text| == 1 ==>
            && text[0].item == ClosedText(st) && text[0].order == order
            && Some(text[0].index) == st.msg.index && text[0].index < st.next)
  {
    hide Covered, ToolsLinked, ItemsClosing, CompactionOpenFrom, Distinct, PiecesAt;
  }

  /** Where the entries of the stored items begin. */
  ghost function Offset(st: State): nat {
    |ReasoningEntries(st)| + |TextEntries(st, |ReasoningEntries(st)|)|
  }

  /** Where the entries come from, and that their orders run. */
  lemma EntriesShape(st: State, b: Book)
    requires AllClosed(st, b)
    ensures var es, r, t := Entries(st), |ReasoningEntries(st)|, if st.msg.itemId.Some? then 1 else 0;
      && Offset(st) == r + t && |es| == Offset(st) + |st.items|
      && (r == 1 ==> es[0] == ReasoningEntries(st)[0] && Some(es[0].index) == st.thinking.index)
      && (t == 1 ==> es[r].item == ClosedText(st) && Some(es[r].index) == st.msg.index)
      && (forall i :: 0 <= i < |es| ==> es[i].order == i && es[i].index < st.next)
  {
    hide AllClosed, Entries, ItemEntries, ReasoningEntries, TextEntries, IndexOf, AsCompleted, ClosedText;
    var reasoning := ReasoningEntries(st);
    var text := TextEntries(st, |reasoning|);
    SideEntries(st, b, |reasoning|);
    StoredEntries(st, b, Offset(st));
    EntriesParts(st);
    Assembled(reasoning, text, ItemEntries(st, 0, Offset(st)), st.next);
  }

  lemma StoredEntry(st: State, b: Book, i: nat)
    requires AllClosed(st, b) && i < |st.items|
    ensures Offset(st) + i < |Entries(st)|
    ensures var e := Entries(st)[Offset(st) + i]; e.item == AsCompleted(st.items[i]) && e.index == IndexOf(st, i)
  {
    hide AllClosed, Entries, ItemEntries, ReasoningEntries, TextEntries, IndexOf, AsCompleted;
    StoredEntries(st, b, Offset(st));
    EntriesParts(st);
    var stored := ItemEntries(st, 0, Offset(st));
    assert Entries(st)[Offset(st) + i] == stored[i];
  }

  lemma EntriesParts(st: State)
    ensures var reasoning := ReasoningEntries(st);
      var text := TextEntries(st, |reasoning|);
      Entries(st) == reasoning + text + ItemEntries(st, 0, |reasoning| + |text|)
  {
    hide ReasoningEntries, TextEntries, ItemEntries;
  }

  lemma Assembled(x: seq<Entry>, y: seq<Entry>, z: seq<Entry>, next: nat)
    requires forall i :: 0 <= i < |x| ==> x[i].order == i && x[i].index < next
    requires forall i :: 0 <= i < |y| ==> y[i].order == |x| + i && y[i].index < next
    requires forall i :: 0 <= i < |z| ==> z[i].order == |x| + |y| + i && z[i].index < next
    ensures var es := x + y + z;
      && |es| == |x| + |y| + |z|
      && (|x| > 0 ==> es[0] == x[0]) && (|y| > 0 ==> es[|x|] == y[0])
      && (forall i :: 0 <= i < |z| ==> es[|x| + |y| + i] == z[i])
      && (forall i :: 0 <= i < |es| ==> es[i].order == i && es[i].index < next)
  {}

  /** A stored item's index is neither the message's nor the reasoning's, nor another item's. */
  lemma IndexIsOwn(st: State, b: Book, i: nat)
    requires AllClosed(st, b) && i < |st.items|
    ensures st.thinking.index != Some(IndexOf(st, i)) && st.msg.index != Some(IndexOf(st, i))
    ensures IndexOf(st, i) in b.closed && b.closed[IndexOf(st, i)] == AsCompleted(st.items[i])
    ensures forall j :: 0 <= j < i ==> IndexOf(st, j) != IndexOf(st, i)
  {
    hide Covered, TextClosed, ThinkingLinked, CompactionOpenFrom, ToolsLinked;
    assert ItemClosing(st, b, i, |st.items|);
  }

  lemma SidesApart(st: State, b: Book)
    requires AllClosed(st, b)
    ensures st.msg.index.Some? ==> st.msg.index != st.thinking.index
    ensures st.msg.itemId.Some? <==> st.msg.index.Some?
  {
    hide Covered, ItemsClosing, ThinkingLinked, CompactionOpenFrom, ToolsLinked, Distinct;
  }

  lemma EntriesApart(st: State, b: Book, x: nat, y: nat)
    requires AllClosed(st, b) && x < y < |Entries(st)|
    ensures Entries(st)[x].index != Entries(st)[y].index
  {
    hide AllClosed, AsCompleted, Entries, IndexOf, TextEntries, Offset;
    EntriesShape(st, b);
    SidesApart(st, b);
    if y >= Offset(st) {
      var i := y - Offset(st);
      StoredEntry(st, b, i);
      IndexIsOwn(st, b, i);
      if x >= Offset(st) {
        StoredEntry(st, b, x - Offset(st));
      }
    }
  }

  /** At each index the sorted entries hold what the observer's book holds. */
  lemma PickIsAt(st: State, b: Book, k: nat)
    requires AllClosed(st, b) && k < st.next
    ensures ItemsOf(Pick(Entries(st), k)) == At(b, k)
  {
    if st.thinking.index == Some(k) {
      PickReasoning(st, b, k);
    } else {
      PickStored(st, b, k);
    }
  }

  lemma PickReasoning(st: State, b: Book, k: nat)
    requires AllClosed(st, b) && st.thinking.index == Some(k)
    ensures ItemsOf(Pick(Entries(st), k)) == At(b, k)
  {
    hide Entries, ItemsClosing, ToolsLinked, CompactionOpenFrom, Distinct, TextEntries, Pick, AsCompleted;
    hide IndexOf, Offset;
    EntriesShape(st, b);
    SidesApart(st, b);
    NotAnOwner(st, b, k);
    var es := Entries(st);
    if st.thinking.text != "" {
      PickEntry(st, b, 0);
    } else {
      forall i | 0 <= i < |es| ensures es[i].index != k {
        if i >= Offset(st) {
          StoredEntry(st, b, i - Offset(st));
          IndexIsOwn(st, b, i - Offset(st));
        }
      }
      PickNone(es, k);
    }
  }

  lemma PickStored(st: State, b: Book, k: nat)
    requires AllClosed(st, b) && k < st.next && st.thinking.index != Some(k)
    ensures ItemsOf(Pick(Entries(st), k)) == At(b, k)
  {
    hide Entries, ItemsClosing, ToolsLinked, CompactionOpenFrom, Distinct, ReasoningEntries, TextEntries, Pick;
    hide AsCompleted, IndexOf, Offset;
    NothingOpen(st, b);
    EntriesShape(st, b);
    SidesApart(st, b);
    assert k in b.closed && Owned(st, k);
    if st.msg.index == Some(k) {
      PickEntry(st, b, |ReasoningEntries(st)|);
    } else {
      var i :| 0 <= i < |st.items| && IndexOf(st, i) == k;
      StoredEntry(st, b, i);
      IndexIsOwn(st, b, i);
      PickEntry(st, b, Offset(st) + i);
    }
  }

  lemma NotAnOwner(st: State, b: Book, k: nat)
    requires AllClosed(st, b) && st.thinking.index == Some(k)
    ensures !Owned(st, k) && k !in b.closed
  {
    hide ToolsLinked, CompactionOpenFrom, Distinct, ThinkingLinked;
    forall i | 0 <= i < |st.items| ensures IndexOf(st, i) != k {
      assert ItemClosing(st, b, i, |st.items|);
    }
  }

  lemma PickEntry(st: State, b: Book, j: nat)
    requires AllClosed(st, b) && j < |Entries(st)|
    ensures ItemsOf(Pick(Entries(st), Entries(st)[j].index)) == [Entries(st)[j].item]
  {
    hide AllClosed, Entries;
    var es := Entries(st);
    forall i | 0 <= i < |es| && i != j ensures es[i].index != es[j].index {
      if i < j { EntriesApart(st, b, i, j); } else { EntriesApart(st, b, j, i); }
    }
    PickOne(es, j);
    assert [es[j]][1..] == [];
  }

  lemma {:induction false} BucketsAreWhole(es: seq<Entry>, b: Book, k: nat)
    requires k <= b.next
    requires forall j: nat :: j < b.next ==> ItemsOf(Pick(es, j)) == At(b, j)
    ensures ItemsOf(Buckets(es, k, b.next)) == Whole(b, k)
    decreases b.next - k
  {
    if k < b.next {
      BucketsAreWhole(es, b, k + 1);
      ItemsOfAppend(Pick(es, k), Buckets(es, k + 1, b.next));
    }
  }

  lemma FinalOutputIsWhole(st: State, b: Book)
    requires AllClosed(st, b)
    ensures FinalOutput(st) == Whole(b, 0)
  {
    hide Entries, Sorted, Buckets, Pick, At, ItemsClosing, ToolsLinked, CompactionOpenFrom, Distinct;
    hide TextClosed, ThinkingLinked;
    EntriesShape(st, b);
    SortedIsBuckets(Entries(st), st.next);
    forall j: nat | j < b.next ensures ItemsOf(Pick(Entries(st), j)) == At(b, j) {
      PickIsAt(st, b, j);
    }
    BucketsAreWhole(Entries(st), b, 0);
  }
}
