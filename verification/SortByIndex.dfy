/** Sorting the terminal output by key is the same as reading it index by index. */
module SortByIndex {
  import opened Protocol
  import opened TranslatorSpec

  /** The entries with one index, in the order they were listed. */
  function Pick(es: seq<Entry>, k: nat): (r: seq<Entry>)
    ensures forall i :: 0 <= i < |r| ==> r[i].index == k
  {
    if es == [] then [] else (if es[0].index == k then [es[0]] else []) + Pick(es[1..], k)
  }

  /** Index after index, from `k` up to `n`. */
  function Buckets(es: seq<Entry>, k: nat, n: nat): (r: seq<Entry>)
    requires k <= n
    ensures forall i :: 0 <= i < |r| ==> k <= r[i].index
    decreases n - k
  {
    if k == n then [] else Pick(es, k) + Buckets(es, k + 1, n)
  }

  lemma {:induction false} InsertPast(e: Entry, x: seq<Entry>, y: seq<Entry>)
    requires forall i :: 0 <= i < |x| ==> x[i].index < e.index
    ensures Insert(e, x + y) == x + Insert(e, y)
  {
    if x == [] {
      assert x + y == y;
    } else {
      assert (x + y)[0] == x[0] && (x + y)[1..] == x[1..] + y;
      InsertPast(e, x[1..], y);
      assert [x[0]] + (x[1..] + Insert(e, y)) == x + Insert(e, y);
    }
  }

  lemma PickCons(e: Entry, es: seq<Entry>, k: nat)
    ensures Pick([e] + es, k) == if e.index == k then [e] + Pick(es, k) else Pick(es, k)
  {
    assert ([e] + es)[1..] == es;
  }

  lemma {:induction false} BucketsSkip(e: Entry, es: seq<Entry>, k: nat, n: nat)
    requires e.index < k <= n
    ensures Buckets([e] + es, k, n) == Buckets(es, k, n)
    decreases n - k
  {
    if k < n {
      PickCons(e, es, k);
      BucketsSkip(e, es, k + 1, n);
    }
  }

  lemma {:induction false} PickAbove(es: seq<Entry>, k: nat, low: nat)
    requires forall i :: 0 <= i < |es| ==> low < es[i].order
    ensures forall i :: 0 <= i < |Pick(es, k)| ==> low < Pick(es, k)[i].order
  {
    if es != [] {
      PickAbove(es[1..], k, low);
    }
  }

  lemma {:induction false} BucketsAbove(es: seq<Entry>, k: nat, n: nat, low: nat)
    requires k <= n
    requires forall i :: 0 <= i < |es| ==> low < es[i].order
    ensures forall i :: 0 <= i < |Buckets(es, k, n)| ==> low < Buckets(es, k, n)[i].order
    decreases n - k
  {
    if k < n {
      PickAbove(es, k, low);
      BucketsAbove(es, k + 1, n, low);
    }
  }

  lemma InsertFirst(e: Entry, es: seq<Entry>)
    requires forall i :: 0 <= i < |es| ==> e.index <= es[i].index && e.order < es[i].order
    ensures Insert(e, es) == [e] + es
  {}

  lemma {:induction false} InsertIntoBuckets(e: Entry, es: seq<Entry>, k: nat, n: nat)
    requires k <= e.index < n
    requires forall i :: 0 <= i < |es| ==> e.order < es[i].order
    ensures Insert(e, Buckets(es, k, n)) == Buckets([e] + es, k, n)
    decreases n - k
  {
    hide Pick, Insert;
    PickCons(e, es, k);
    var here, rest := Pick(es, k), Buckets(es, k + 1, n);
    if k < e.index {
      InsertPast(e, here, rest);
      InsertIntoBuckets(e, es, k + 1, n);
    } else {
      BucketsSkip(e, es, k + 1, n);
      BucketsAbove(es, k, n, e.order);
      InsertFirst(e, Buckets(es, k, n));
      assert [e] + (here + rest) == ([e] + here) + rest;
    }
  }

  /** With running orders, sorting by index and order is going through the indexes one by one. */
  lemma {:induction false} SortedIsBuckets(es: seq<Entry>, n: nat)
    requires forall i :: 0 <= i < |es| ==> es[i].index < n
    requires forall i, j :: 0 <= i < j < |es| ==> es[i].order < es[j].order
    ensures Sorted(es) == Buckets(es, 0, n)
  {
    if es == [] {
      EmptyBuckets(0, n);
    } else {
      SortedIsBuckets(es[1..], n);
      InsertIntoBuckets(es[0], es[1..], 0, n);
      assert [es[0]] + es[1..] == es;
    }
  }

  lemma {:induction false} EmptyBuckets(k: nat, n: nat)
    requires k <= n
    ensures Buckets([], k, n) == []
    decreases n - k
  {
    if k < n {
      EmptyBuckets(k + 1, n);
    }
  }

  lemma {:induction false} ItemsOfAppend(x: seq<Entry>, y: seq<Entry>)
    ensures ItemsOf(x + y) == ItemsOf(x) + ItemsOf(y)
  {
    if x == [] {
      assert x + y == y;
    } else {
      assert (x + y)[1..] == x[1..] + y;
      ItemsOfAppend(x[1..], y);
    }
  }

  lemma {:induction false} PickNone(es: seq<Entry>, k: nat)
    requires forall i :: 0 <= i < |es| ==> es[i].index != k
    ensures Pick(es, k) == []
  {
    if es != [] {
      PickNone(es[1..], k);
    }
  }

  /** The only entry at its index is picked alone. */
  lemma {:induction false} PickOne(es: seq<Entry>, j: nat)
    requires j < |es|
    requires forall i :: 0 <= i < |es| && i != j ==> es[i].index != es[j].index
    ensures Pick(es, es[j].index) == [es[j]]
  {
    if j == 0 {
      PickNone(es[1..], es[0].index);
    } else {
      PickOne(es[1..], j - 1);
    }
  }
}
