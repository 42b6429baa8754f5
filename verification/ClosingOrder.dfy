/** In what order the end of a stream closes what is open. */
module ClosingOrder {
  import opened Text
  import opened Protocol
  import opened TranslatorSpec
  import opened Chunking
  import opened Terminal
  import opened Announcement
  import opened ToolRouting
  import opened EventFacts
  import opened Keepalive

  /** The ids of the items done, in order. */
  function DoneIds(frames: seq<Frame>): seq<string> {
    if frames == [] then [] else DoneId(frames[0]) + DoneIds(frames[1..])
  }

  function DoneId(f: Frame): seq<string> {
    if f.Event? && f.body.ItemDone? then [f.body.item.id] else []
  }

  /** The ids of the items still in progress, in order. */
  function OpenIds(items: seq<Item>): seq<string> {
    if items == [] then [] else OpenId(items[0]) + OpenIds(items[1..])
  }

  function OpenId(item: Item): seq<string> {
    if IsDone(item) then [] else [item.id]
  }

  predicate Apart(items: seq<Item>) {
    forall i, j :: 0 <= i < j < |items| ==> items[i].id != items[j].id
  }

  lemma {:induction false} DoneThen(a: seq<Frame>, b: seq<Frame>)
    ensures DoneIds(a + b) == DoneIds(a) + DoneIds(b)
  {
    hide DoneId;
    if a == [] {
      assert a + b == b;
    } else {
      DoneThen(a[1..], b);
      assert (a + b)[0] == a[0] && (a + b)[1..] == a[1..] + b;
      var x, y, z := DoneId(a[0]), DoneIds(a[1..]), DoneIds(b);
      assert x + (y + z) == (x + y) + z;
    }
  }

  lemma OneDone(f: Frame)
    ensures DoneIds([f]) == DoneId(f)
  {
    assert [f][1..] == [];
    assert DoneId(f) + [] == DoneId(f);
  }

  lemma DoneOfThree(a: Frame, b: Frame, c: Frame)
    ensures DoneIds([a, b, c]) == DoneId(a) + DoneId(b) + DoneId(c)
  {
    hide DoneId;
    OneDone(a);
    OneDone(b);
    OneDone(c);
    DoneThen([a], [b]);
    DoneThen([a, b], [c]);
    assert [a] + [b] == [a, b] && [a, b] + [c] == [a, b, c];
  }

  /** Closing one item, while the others with their own ids are as they were. */
  lemma CloseItemDone(st: State, items: seq<Item>, position: nat)
    requires position < |items| && Apart(items) && |st.items| == |items|
    requires forall k :: position <= k < |items| ==> st.items[k] == items[k]
    requires forall k :: 0 <= k < |items| ==> st.items[k].id == items[k].id
    ensures var r := CloseItem(st, items[position], position);
      && DoneIds(r.out) == OpenId(items[position])
      && |r.state.items| == |items|
      && (forall k :: position < k < |items| ==> r.state.items[k] == items[k])
      && (forall k :: 0 <= k < |items| ==> r.state.items[k].id == items[k].id)
  {
    hide OpenItemIndex;
    var item := items[position];
    var r := CloseItem(st, item, position);
    if IsDone(item) {
    } else if st.cmp.itemId == Some(item.id) {
      var found := FindItem(st.items, item.id);
      assert st.items[position].id == item.id;
      assert found == Some(position);
      DoneOfThree(r.out[0], r.out[1], r.out[2]);
      assert r.out == [r.out[0], r.out[1], r.out[2]];
    } else if item.FunctionCall? {
      OneDone(r.out[0]);
      OneDone(r.out[1]);
      DoneThen([r.out[0]], [r.out[1]]);
      assert r.out == [r.out[0]] + [r.out[1]];
    } else {
      OneDone(r.out[0]);
      assert r.out == [r.out[0]];
    }
  }

  lemma {:induction false} CloseFromDone(st: State, items: seq<Item>, position: nat)
    requires position <= |items| && Apart(items) && |st.items| == |items|
    requires forall k :: position <= k < |items| ==> st.items[k] == items[k]
    requires forall k :: 0 <= k < |items| ==> st.items[k].id == items[k].id
    ensures DoneIds(CloseItemsFrom(st, items, position).out) == OpenIds(items[position..])
    decreases |items| - position
  {
    hide CloseItem, DoneId, OpenId;
    if position < |items| {
      CloseItemDone(st, items, position);
      var one := CloseItem(st, items[position], position);
      CloseFromDone(one.state, items, position + 1);
      DoneThen(one.out, CloseItemsFrom(one.state, items, position + 1).out);
      assert items[position..][0] == items[position] && items[position..][1..] == items[position + 1..];
    }
  }

  lemma TextDone(st: State)
    ensures DoneIds(CloseText(st).out) == if st.msg.itemId.Some? then [st.msg.itemId.value] else []
    ensures CloseText(st).state.items == st.items
  {
    if st.msg.itemId.Some? {
      var out := CloseText(st).out;
      DoneOfThree(out[0], out[1], out[2]);
      assert out == [out[0], out[1], out[2]];
    }
  }

  lemma CompleteDone(st: State)
    requires !st.Closed() && Apart(st.items)
    ensures DoneIds(Complete(st).out)
         == (if st.msg.itemId.Some? then [st.msg.itemId.value] else []) + OpenIds(st.items)
  {
    hide CloseText, CloseItemsFrom, FinalOutput, OpenIds, DoneIds;
    var st1 := st.(phase := st.phase.(finished := true));
    TextDone(st1);
    var text := CloseText(st1);
    CloseFromDone(text.state, text.state.items, 0);
    assert st.items[0..] == st.items;
    var rest := CloseItemsFrom(text.state, text.state.items, 0);
    DoneThen(text.out, rest.out);
    var out := Complete(st).out;
    var n := |out| - 2;
    assert out == (text.out + rest.out) + ([out[n]] + [out[n + 1]]);
    DoneThen(text.out + rest.out, [out[n]] + [out[n + 1]]);
    DoneThen([out[n]], [out[n + 1]]);
    LastNotDone(out[n], out[n + 1]);
    assert DoneIds(text.out + rest.out) + [] == DoneIds(text.out + rest.out);
  }

  lemma LastNotDone(a: Frame, b: Frame)
    requires a.Event? && a.body.Terminal() && b == DoneMark
    ensures DoneIds([a]) == [] && DoneIds([b]) == []
  {
    OneDone(a);
    OneDone(b);
  }

  lemma MessageIdIs(st: State, event: Upstream)
    requires st.msg.itemId.Some? ==> st.msg.itemId == Some("msg_" + st.id)
    ensures var st1 := Step(st, event).state;
      st1.id == st.id && (st1.msg.itemId.Some? ==> st1.msg.itemId == Some("msg_" + st.id))
  {
    hide CloseOpenItems, FinalOutput, Replace, InitialArguments, CallId, FindItem;
    if event.MessageStop? && !st.Closed() {
      CloseKeepsMessage(st.(phase := st.phase.(finished := true)));
    }
  }

  lemma CloseKeepsMessage(st: State)
    ensures var st1 := CloseOpenItems(st).state; st1.id == st.id && st1.msg == st.msg
  {
    hide CloseItemsFrom;
    CloseFromKeepsMessage(CloseText(st).state, CloseText(st).state.items, 0);
  }

  lemma {:induction false} CloseFromKeepsMessage(st: State, items: seq<Item>, position: nat)
    requires position <= |items|
    ensures var st1 := CloseItemsFrom(st, items, position).state; st1.id == st.id && st1.msg == st.msg
    decreases |items| - position
  {
    if position < |items| {
      CloseFromKeepsMessage(CloseItem(st, items[position], position).state, items, position + 1);
    }
  }

  lemma {:induction false} RunMessageId(st: State, events: seq<Upstream>)
    requires st.msg.itemId.Some? ==> st.msg.itemId == Some("msg_" + st.id)
    ensures var st1 := Run(st, events).state; st1.msg.itemId.Some? ==> st1.msg.itemId == Some("msg_" + st.id)
    decreases |events|
  {
    hide Step;
    if events != [] {
      MessageIdIs(st, events[0]);
      RunMessageId(Step(st, events[0]).state, events[1..]);
    }
  }

  /** When a stream is stopped by `message_stop`, the message is closed first if there is one, then whatever a ping
      would list as in progress, in the listed order; nothing else, and nothing that was closed before. */
  lemma ClosesInOrder(id: string, model: string, before: seq<Upstream>) returns (listed: seq<Item>)
    requires Ongoing(before) && Apart(Run(Fresh(id, model), before).state.items)
    ensures IdsOf(listed) == AnnouncedIds(Run(Fresh(id, model), before).out, "msg_" + id)
    ensures listed == Run(Fresh(id, model), before).state.items
    ensures var r, whole := Run(Fresh(id, model), before), Run(Fresh(id, model), before + [MessageStop]);
      && r.out <= whole.out
      && DoneIds(whole.out[|r.out|..])
         == (if r.state.msg.itemId.Some? then ["msg_" + id] else []) + OpenIds(listed)
  {
    hide Run, Complete, DoneIds, OpenIds, IdsOf, AnnouncedIds, Apart;
    listed := PingSays(id, model, before);
    var r := Run(Fresh(id, model), before);
    RunReflects(Fresh(id, model), before);
    RunMessageId(Fresh(id, model), before);
    RunAppend(Fresh(id, model), before, [MessageStop]);
    RunOne(r.state, MessageStop);
    CompleteDone(r.state);
    assert (r.out + Complete(r.state).out)[|r.out|..] == Complete(r.state).out;
  }
}
