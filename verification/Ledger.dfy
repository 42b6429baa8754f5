/** An observer of the outgoing stream, knowing nothing of the translator: the item life cycle as a ledger. */
module Ledger {
  import opened Text
  import opened Protocol
  import opened TranslatorSpec
  import opened Chunking

  datatype Slot = Slot(index: nat, id: string)

  /** Items announced and not yet done by output index, items done, the reasoning slot, and for every index the
      pieces streamed under it, joined. `ok` says that nothing seen so far broke a rule. */
  datatype Book = Book(ok: bool, next: nat, open: map<nat, string>, closed: map<nat, Item>,
                       reasoning: Option<Slot>, pieces: map<nat, string>)

  const BLANK_BOOK: Book := Book(true, 0, map[], map[], None, map[])

  function PiecesAt(b: Book, k: nat): string {
    if k in b.pieces then b.pieces[k] else ""
  }

  predicate IsOpen(b: Book, k: nat, id: string) {
    k in b.open && b.open[k] == id
  }

  function Content(item: Item): string {
    match item
    case Message(_, _, text) => text.GetOr("")
    case FunctionCall(_, _, _, _, arguments) => arguments
    case Reasoning(_, summary) => summary
  }

  /** An item takes the next free index. */
  function Added(b: Book, k: nat, item: Item): Book {
    b.(ok := b.ok && k == b.next && !IsDone(item),
       next := b.next + 1, open := b.open[k := item.id], pieces := b.pieces[k := ""])
  }

  /** A piece belongs to an open item, under its own id and index. */
  function Grown(b: Book, k: nat, id: string, piece: string): Book {
    b.(ok := b.ok && IsOpen(b, k, id), pieces := b.pieces[k := PiecesAt(b, k) + piece])
  }

  /** Reasoning takes the next free index with its first piece and keeps it. */
  function Thought(b: Book, k: nat, id: string, piece: string): Book {
    match b.reasoning
    case None => b.(ok := b.ok && k == b.next, next := b.next + 1, reasoning := Some(Slot(k, id)),
                    pieces := b.pieces[k := piece])
    case Some(slot) => b.(ok := b.ok && slot == Slot(k, id), pieces := b.pieces[k := PiecesAt(b, k) + piece])
  }

  /** A done event carries exactly what was streamed for its open item. */
  function Checked(b: Book, k: nat, id: string, content: string): Book {
    b.(ok := b.ok && IsOpen(b, k, id) && content == PiecesAt(b, k))
  }

  function Closed(b: Book, k: nat, item: Item): Book {
    b.(ok := b.ok && IsOpen(b, k, item.id) && IsDone(item) && Content(item) == PiecesAt(b, k),
       open := b.open - {k}, closed := b.closed[k := item])
  }

  /** The terminal output an observer expects: the done items and non-empty reasoning, index by index. */
  function Whole(b: Book, k: nat): seq<Item>
    requires k <= b.next
    decreases b.next - k
  {
    if k == b.next then [] else At(b, k) + Whole(b, k + 1)
  }

  function At(b: Book, k: nat): seq<Item> {
    if k in b.closed then [b.closed[k]]
    else if b.reasoning.Some? && b.reasoning.value.index == k && PiecesAt(b, k) != ""
    then [Reasoning(b.reasoning.value.id, PiecesAt(b, k))]
    else []
  }

  function Ended(b: Book, output: seq<Item>): Book {
    b.(ok := b.ok && b.open == map[] && output == Whole(b, 0))
  }

  function See(b: Book, body: Body): Book {
    match body
    case ItemAdded(k, item) => Added(b, k, item)
    case PartAdded(id, k) => Checked(b, k, id, "")
    case OutputTextDelta(id, k, piece) => Grown(b, k, id, piece)
    case ArgumentsDelta(id, k, piece) => Grown(b, k, id, piece)
    case ReasoningDelta(id, k, piece) => Thought(b, k, id, piece)
    case OutputTextDone(id, k, text) => Checked(b, k, id, text)
    case PartDone(id, k, text) => Checked(b, k, id, text)
    case ArgumentsDone(id, k, arguments) => Checked(b, k, id, arguments)
    case ItemDone(k, item) => Closed(b, k, item)
    case CompletedBody(response) => Ended(b, response.output)
    case IncompleteBody(response) => Ended(b, response.output)
    case _ => b
  }

  function Observe(b: Book, fs: seq<Frame>): Book
    decreases |fs|
  {
    if fs == [] then b else Observe(if fs[0].Event? then See(b, fs[0].body) else b, fs[1..])
  }

  lemma {:induction false} ObserveThen(b: Book, x: seq<Frame>, y: seq<Frame>)
    ensures Observe(b, x + y) == Observe(Observe(b, x), y)
    decreases |x|
  {
    if x == [] {
      assert x + y == y;
    } else {
      assert (x + y)[0] == x[0] && (x + y)[1..] == x[1..] + y;
      ObserveThen(if x[0].Event? then See(b, x[0].body) else b, x[1..], y);
    }
  }

  lemma ObserveOne(b: Book, st: State, b1: Body)
    ensures Observe(b, Send(st, [b1]).out) == See(b, b1)
  {
    var fs := Send(st, [b1]).out;
    assert fs[1..] == [];
  }

  lemma ObserveTwo(b: Book, st: State, b1: Body, b2: Body)
    ensures Observe(b, Send(st, [b1, b2]).out) == See(See(b, b1), b2)
  {
    var st1 := st.(sequence := st.sequence + 1);
    assert Send(st, [b1, b2]).out[1..] == Send(st1, [b2]).out;
    ObserveOne(See(b, b1), st1, b2);
  }

  lemma ObserveThree(b: Book, st: State, b1: Body, b2: Body, b3: Body)
    ensures Observe(b, Send(st, [b1, b2, b3]).out) == See(See(See(b, b1), b2), b3)
  {
    var st1 := st.(sequence := st.sequence + 1);
    assert Send(st, [b1, b2, b3]).out[1..] == Send(st1, [b2, b3]).out;
    ObserveTwo(See(b, b1), st1, b2, b3);
  }

  lemma ObserveFinally(b: Book, st: State, body: Body)
    ensures Observe(b, Finally(st, body).out) == See(b, body)
  {
    ObserveOne(b, st, body);
    ObserveThen(b, Send(st, [body]).out, [DoneMark]);
    assert [DoneMark][1..] == [];
  }

  // ---------------------------------------------------------------- what an accepted trace means

  /** Once a rule is broken the book never recovers. */
  lemma {:induction false} OkBefore(b: Book, fs: seq<Frame>)
    requires Observe(b, fs).ok
    ensures b.ok
    decreases |fs|
  {
    if fs != [] {
      OkBefore(if fs[0].Event? then See(b, fs[0].body) else b, fs[1..]);
    }
  }

  /** The book after the first frame. */
  lemma SeeFirst(b: Book, fs: seq<Frame>) returns (b1: Book)
    requires Observe(b, fs).ok && fs != []
    ensures b1 == (if fs[0].Event? then See(b, fs[0].body) else b) && b1.ok && Observe(b1, fs[1..]) == Observe(b, fs)
  {
    hide See;
    b1 := if fs[0].Event? then See(b, fs[0].body) else b;
    OkBefore(b1, fs[1..]);
  }

  predicate DoneAt(fs: seq<Frame>, j: nat, k: nat) {
    j < |fs| && fs[j].Event? && fs[j].body.ItemDone? && fs[j].body.index == k
  }

  predicate Finished(fs: seq<Frame>) {
    fs != [] && fs[|fs| - 1].Event? && (fs[|fs| - 1].body.CompletedBody? || fs[|fs| - 1].body.IncompleteBody?)
  }

  ghost predicate Tidy(b: Book) {
    b.open.Keys !! b.closed.Keys && (forall k :: k in b.open || k in b.closed ==> k < b.next)
  }

  /** What one accepted event does to an open index: its own done event closes it, and no completion comes before. */
  lemma OpenSeen(b: Book, body: Body, k: nat)
    requires See(b, body).ok && Tidy(b) && k in b.open
    ensures if body.ItemDone? && body.index == k then body.item.id == b.open[k] && k in See(b, body).closed
            else k in See(b, body).open && See(b, body).open[k] == b.open[k]
                 && !body.CompletedBody? && !body.IncompleteBody?
  {
    hide Content, PiecesAt, Whole;
  }

  lemma ClosedSeen(b: Book, body: Body, k: nat)
    requires See(b, body).ok && Tidy(b) && k in b.closed
    ensures k in See(b, body).closed && !(body.ItemDone? && body.index == k)
  {
    hide Content, PiecesAt, Whole;
  }

  /** In an accepted trace up to its completion, an open index is done exactly once more, under its id; a closed
      or not yet used one that gets added later is not done before that. */
  lemma {:induction false} OpenIsClosedOnce(b: Book, fs: seq<Frame>, k: nat) returns (j: nat)
    requires Observe(b, fs).ok && Finished(fs) && Tidy(b)
    requires k in b.open
    ensures DoneAt(fs, j, k) && fs[j].body.item.id == b.open[k] && j < |fs| - 1
    ensures forall i: nat :: DoneAt(fs, i, k) ==> i == j
    decreases |fs|
  {
    hide See, Observe;
    var b1 := SeeFirst(b, fs);
    if fs[0].Event? {
      OpenSeen(b, fs[0].body, k);
      SeeKeepsTidy(b, fs[0].body);
    }
    if DoneAt(fs, 0, k) {
      j := 0;
      ClosedStaysClosed(b1, fs[1..], k);
      forall i: nat | DoneAt(fs, i, k) ensures i == 0 {
        assert i > 0 ==> !DoneAt(fs[1..], i - 1, k);
      }
    } else {
      assert |fs| > 1;
      assert fs[1..][|fs| - 2] == fs[|fs| - 1];
      var i := OpenIsClosedOnce(b1, fs[1..], k);
      j := i + 1;
      forall m: nat | DoneAt(fs, m, k) ensures m == j {
        assert DoneAt(fs[1..], m - 1, k);
      }
    }
  }

  lemma {:induction false} ClosedStaysClosed(b: Book, fs: seq<Frame>, k: nat)
    requires Observe(b, fs).ok && Tidy(b) && k in b.closed
    ensures forall i: nat :: !DoneAt(fs, i, k)
    decreases |fs|
  {
    hide See, Observe;
    if fs != [] {
      var b1 := SeeFirst(b, fs);
      if fs[0].Event? {
        ClosedSeen(b, fs[0].body, k);
        SeeKeepsTidy(b, fs[0].body);
      }
      ClosedStaysClosed(b1, fs[1..], k);
      forall i: nat ensures !DoneAt(fs, i, k) {
        assert i > 0 ==> !DoneAt(fs[1..], i - 1, k);
      }
    }
  }

  /** Nothing is done under an index nobody has taken. */
  lemma {:induction false} NotDoneBeforeAdded(b: Book, fs: seq<Frame>, i: nat)
    requires Observe(b, fs).ok && Tidy(b)
    requires i < |fs| && fs[i].Event? && fs[i].body.ItemAdded?
    ensures fs[i].body.index >= b.next
    ensures forall m: nat :: m < i ==> !DoneAt(fs, m, fs[i].body.index)
    decreases |fs|
  {
    var b1 := if fs[0].Event? then See(b, fs[0].body) else b;
    OkBefore(b1, fs[1..]);
    if i > 0 {
      if fs[0].Event? {
        SeeKeepsTidy(b, fs[0].body);
      }
      var k := fs[i].body.index;
      assert fs[1..][i - 1] == fs[i];
      NotDoneBeforeAdded(b1, fs[1..], i - 1);
      forall m: nat | m < i ensures !DoneAt(fs, m, k) {
        if m > 0 {
          assert DoneAt(fs, m, k) == DoneAt(fs[1..], m - 1, k);
        }
      }
    }
  }

  lemma SeeKeepsTidy(b: Book, body: Body)
    requires See(b, body).ok && Tidy(b)
    ensures Tidy(See(b, body)) && See(b, body).next >= b.next
  {}

  lemma {:induction false} TidyAfter(b: Book, fs: seq<Frame>)
    requires Observe(b, fs).ok && Tidy(b)
    ensures Tidy(Observe(b, fs))
    decreases |fs|
  {
    if fs != [] {
      var b1 := if fs[0].Event? then See(b, fs[0].body) else b;
      OkBefore(b1, fs[1..]);
      if fs[0].Event? {
        SeeKeepsTidy(b, fs[0].body);
      }
      TidyAfter(b1, fs[1..]);
    }
  }

  /** The life cycle in positions: in an accepted trace that ends in its completion, every `output_item.added` has
      exactly one `output_item.done` with its index; it comes later, before the completion, and for the same item. */
  lemma AddedHasOneDone(fs: seq<Frame>, i: nat) returns (j: nat)
    requires Observe(BLANK_BOOK, fs).ok && Finished(fs)
    requires i < |fs| && fs[i].Event? && fs[i].body.ItemAdded?
    ensures i < j < |fs| - 1
    ensures DoneAt(fs, j, fs[i].body.index) && fs[j].body.item.id == fs[i].body.item.id
    ensures forall m: nat :: DoneAt(fs, m, fs[i].body.index) ==> m == j
  {
    var k := fs[i].body.index;
    var before, after := fs[..i + 1], fs[i + 1..];
    assert fs == before + after;
    ObserveThen(BLANK_BOOK, before, after);
    var b := Observe(BLANK_BOOK, before);
    OkBefore(b, after);
    TidyAfter(BLANK_BOOK, before);
    assert before == fs[..i] + [fs[i]];
    ObserveThen(BLANK_BOOK, fs[..i], [fs[i]]);
    assert [fs[i]][1..] == [];
    assert b == See(Observe(BLANK_BOOK, fs[..i]), fs[i].body);
    assert after != [] by {
      assert fs[|fs| - 1] != fs[i];
    }
    assert after[|after| - 1] == fs[|fs| - 1];
    var n := OpenIsClosedOnce(b, after, k);
    j := n + i + 1;
    NotDoneBeforeAdded(BLANK_BOOK, fs, i);
    forall m: nat | DoneAt(fs, m, k) ensures m == j {
      assert m > i;
      assert DoneAt(after, m - i - 1, k);
    }
  }

  /** A stream that ended in its completion and the closing mark. */
  predicate RanToCompletion(trace: seq<Frame>) {
    |trace| >= 2 && trace[|trace| - 1] == DoneMark && Finished(trace[..|trace| - 1])
  }

  lemma CompletedHasOneDone(trace: seq<Frame>, i: nat) returns (j: nat)
    requires Observe(BLANK_BOOK, trace).ok && RanToCompletion(trace)
    requires i < |trace| && trace[i].Event? && trace[i].body.ItemAdded?
    ensures i < j < |trace| - 2
    ensures DoneAt(trace, j, trace[i].body.index) && trace[j].body.item.id == trace[i].body.item.id
    ensures forall m: nat :: DoneAt(trace, m, trace[i].body.index) ==> m == j
  {
    var fs := trace[..|trace| - 1];
    assert trace == fs + [DoneMark];
    ObserveThen(BLANK_BOOK, fs, [DoneMark]);
    assert [DoneMark][1..] == [];
    j := AddedHasOneDone(fs, i);
    forall m: nat | DoneAt(trace, m, trace[i].body.index) ensures m == j {
      assert DoneAt(fs, m, fs[i].body.index);
    }
  }
}
