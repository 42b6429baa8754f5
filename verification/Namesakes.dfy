/** When gathering calls by id gives back what the object means. */
module Namesakes {
  import opened Text
  import opened Protocol
  import opened MessageObjects

  /** Only calls share ids. */
  predicate CallsShare(places: seq<Place>) {
    forall j, k :: 0 <= j < k < |places| && places[j].ItemPlace? && Names(places[k], places[j].item.id) ==>
      places[j].item.FunctionCall? && places[k].item.FunctionCall?
  }

  // ---------------------------------------------------------------- harmless: everything is in its place

  lemma {:induction false} InputsFromFirst(places: seq<Place>, x: string, j: nat)
    requires j < |places| && Names(places[j], x)
    requires forall k :: 0 <= k < |places| && k != j ==> InputOf(places[k], x) == ""
    ensures Inputs(places, x) == InputOf(places[j], x)
  {
    hide InputOf;
    var n := |places| - 1;
    if j == n {
      NoInputs(places[..n], x);
    } else {
      InputsFromFirst(places[..n], x, j);
    }
  }

  lemma {:induction false} NoInputs(places: seq<Place>, x: string)
    requires forall k :: 0 <= k < |places| ==> InputOf(places[k], x) == ""
    ensures Inputs(places, x) == ""
  {
    if places != [] {
      NoInputs(places[..|places| - 1], x);
    }
  }

  /** Each stored item is the planned one. */
  lemma HarmlessMerged(id: string, plan: Plan, k: nat)
    requires HarmlessPlan(id, plan) && k < |plan.places| && plan.places[k].ItemPlace?
    ensures Merged(plan.places, k) == plan.places[k].item
  {
    hide FillOne, Inputs;
    var places, x := plan.places, plan.places[k].item.id;
    if places[k].item.FunctionCall? {
      if Earlier(places, x, k) {
        var j :| 0 <= j < k && Names(places[j], x);
        assert InputOf(places[k], places[j].item.id) == "";
      } else {
        forall m | 0 <= m < |places| && m != k ensures InputOf(places[m], x) == "" {
          if m > k && Names(places[m], x) {
            assert InputOf(places[m], places[k].item.id) == "";
          }
        }
        InputsFromFirst(places, x, k);
      }
    }
  }

  ghost predicate Straddles(places: seq<Place>, x: string, n: nat) {
    Earlier(places, x, n) && Later(places, x, n)
  }

  /** Nothing comes out while calls of an id are still to come, but those calls. */
  lemma NothingBetween(id: string, plan: Plan, x: string, m: nat)
    requires HarmlessPlan(id, plan) && m < |plan.places|
    requires Straddles(plan.places, x, m)
    ensures Names(plan.places[m], x) || FillOne(id, plan, plan.places[m]) == []
  {
    hide FillOne, InputOf;
    var places := plan.places;
    var j :| 0 <= j < m && Names(places[j], x);
    var k :| m <= k < |places| && Names(places[k], x);
    assert places[j].ItemPlace? && Names(places[k], places[j].item.id);
  }

  /** What is due at a place: the calls met so far of the one id that is still open there. */
  ghost predicate Due(places: seq<Place>, n: nat, due: Option<string>) {
    && (due.Some? ==> Straddles(places, due.value, n))
    && forall x :: Straddles(places, x, n) ==> due == Some(x)
  }

  function Waiting(places: seq<Place>, n: nat, due: Option<string>): seq<Item>
    requires n <= |places|
  {
    match due
    case None => []
    case Some(x) => Group(places, x, n)
  }

  lemma {:induction false} EmptyGroup(places: seq<Place>, x: string, n: nat)
    requires n <= |places| && !Earlier(places, x, n)
    ensures Group(places, x, n) == []
  {
    if n > 0 {
      assert !Names(places[n - 1], x);
      EmptyGroup(places, x, n - 1);
    }
  }

  lemma StraddlesNext(places: seq<Place>, x: string, n: nat)
    requires n < |places|
    ensures Straddles(places, x, n + 1) <==>
      if Names(places[n], x) then Later(places, x, n + 1) else Straddles(places, x, n)
    ensures Names(places[n], x) ==> (Straddles(places, x, n) <==> Earlier(places, x, n))
  {
    hide Names;
    if Earlier(places, x, n) {
      var j :| 0 <= j < n && Names(places[j], x);
      assert Earlier(places, x, n + 1);
    }
    if Later(places, x, n + 1) {
      var j :| n + 1 <= j < |places| && Names(places[j], x);
      assert Later(places, x, n);
    }
  }

  lemma NothingWaits(places: seq<Place>, n: nat)
    requires n <= |places|
    ensures Waiting(places, n, None) == []
  {}

  /** Up to every place: the meaning is what has come out, and then the calls that wait. */
  lemma {:induction false} MeaningSoFar(id: string, plan: Plan, n: nat) returns (due: Option<string>)
    requires HarmlessPlan(id, plan) && n <= |plan.places|
    ensures Due(plan.places, n, due)
    ensures Fill(id, plan, n) == Gathered(id, plan, n) + Waiting(plan.places, n, due)
  {
    hide HarmlessPlan, FillOne, Merged, GatheredAt, Waiting, Group;
    if n == 0 {
      due := None;
      assert Waiting(plan.places, 0, None) == [] by {
        NothingWaits(plan.places, 0);
      }
    } else {
      var before := MeaningSoFar(id, plan, n - 1);
      due := OnePlace(id, plan, n - 1, before);
      var out, was, is_ := Gathered(id, plan, n - 1), Waiting(plan.places, n - 1, before), Waiting(plan.places, n, due);
      var here, given := FillOne(id, plan, plan.places[n - 1]), GatheredAt(id, plan, n - 1);
      assert (out + was) + here == out + (was + here);
      assert out + (given + is_) == (out + given) + is_;
    }
  }

  lemma OnePlace(id: string, plan: Plan, n: nat, before: Option<string>) returns (due: Option<string>)
    requires HarmlessPlan(id, plan) && n < |plan.places| && Due(plan.places, n, before)
    ensures Due(plan.places, n + 1, due)
    ensures Waiting(plan.places, n, before) + FillOne(id, plan, plan.places[n])
         == GatheredAt(id, plan, n) + Waiting(plan.places, n + 1, due)
  {
    var places := plan.places;
    if places[n].ItemPlace? {
      due := OneItem(id, plan, n, before);
    } else {
      due := before;
      OneLoose(id, plan, n, before);
    }
  }

  lemma OneLoose(id: string, plan: Plan, n: nat, due: Option<string>)
    requires HarmlessPlan(id, plan) && n < |plan.places| && Due(plan.places, n, due) && !plan.places[n].ItemPlace?
    ensures Due(plan.places, n + 1, due)
    ensures Waiting(plan.places, n, due) + FillOne(id, plan, plan.places[n])
         == GatheredAt(id, plan, n) + Waiting(plan.places, n + 1, due)
  {
    hide HarmlessPlan, FillOne, Merged, Straddles;
    var places := plan.places;
    forall x ensures Straddles(places, x, n + 1) == Straddles(places, x, n) {
      StraddlesNext(places, x, n);
    }
    if due.Some? {
      NothingBetween(id, plan, due.value, n);
    }
  }

  lemma OneItem(id: string, plan: Plan, n: nat, before: Option<string>) returns (due: Option<string>)
    requires HarmlessPlan(id, plan) && n < |plan.places| && Due(plan.places, n, before) && plan.places[n].ItemPlace?
    ensures Due(plan.places, n + 1, due)
    ensures Waiting(plan.places, n, before) + FillOne(id, plan, plan.places[n])
         == GatheredAt(id, plan, n) + Waiting(plan.places, n + 1, due)
  {
    hide HarmlessPlan, Merged, Straddles, Earlier, Later;
    var places, x := plan.places, plan.places[n].item.id;
    HarmlessMerged(id, plan, n);
    forall y ensures Straddles(places, y, n + 1) <==>
      if y == x then Later(places, x, n + 1) else Straddles(places, y, n)
    {
      StraddlesNext(places, y, n);
    }
    StraddlesNext(places, x, n);
    if before.Some? && before.value != x {
      NothingBetween(id, plan, before.value, n);
      assert false;
    }
    assert Waiting(places, n, before) == Group(places, x, n) by {
      if before.None? {
        assert !Straddles(places, x, n);
        EmptyGroup(places, x, n);
      }
    }
    due := if Later(places, x, n + 1) then Some(x) else None;
    assert Group(places, x, n + 1) == Group(places, x, n) + [places[n].item];
  }

  lemma HarmlessGivesMeaning(id: string, plan: Plan)
    requires HarmlessPlan(id, plan)
    ensures Gathered(id, plan, |plan.places|) == Fill(id, plan, |plan.places|)
  {
    hide HarmlessPlan, Gathered, Fill;
    var due := MeaningSoFar(id, plan, |plan.places|);
  }

  // ---------------------------------------------------------------- and only then

  predicate IsCall(item: Item, x: string) {
    item.FunctionCall? && item.id == x
  }

  /** The calls of one id. */
  function CallsOf(items: seq<Item>, x: string): seq<Item> {
    if items == [] then [] else (if IsCall(items[0], x) then [items[0]] else []) + CallsOf(items[1..], x)
  }

  lemma {:induction false} CallsOfThen(a: seq<Item>, b: seq<Item>, x: string)
    ensures CallsOf(a + b, x) == CallsOf(a, x) + CallsOf(b, x)
  {
    if a == [] {
      assert a + b == b;
    } else {
      CallsOfThen(a[1..], b, x);
      assert (a + b)[1..] == a[1..] + b;
    }
  }

  lemma {:induction false} CallsOfAll(items: seq<Item>, x: string)
    requires forall i :: 0 <= i < |items| ==> IsCall(items[i], x)
    ensures CallsOf(items, x) == items
  {
    if items != [] {
      CallsOfAll(items[1..], x);
    }
  }

  lemma {:induction false} CallsOfNone(items: seq<Item>, x: string)
    requires forall i :: 0 <= i < |items| ==> !IsCall(items[i], x)
    ensures CallsOf(items, x) == []
  {
    if items != [] {
      CallsOfNone(items[1..], x);
    }
  }

  /** The planned items of one id among the first places. */
  function Planned(places: seq<Place>, x: string, n: nat): seq<Item>
    requires n <= |places|
  {
    if n == 0 then []
    else Planned(places, x, n - 1) + if Names(places[n - 1], x) then [places[n - 1].item] else []
  }

  ghost predicate OnlyCalls(places: seq<Place>, x: string) {
    forall k :: 0 <= k < |places| && Names(places[k], x) ==> places[k].item.FunctionCall?
  }

  lemma FillOneCalls(id: string, plan: Plan, x: string, k: nat)
    requires k < |plan.places| && OnlyCalls(plan.places, x)
    ensures CallsOf(FillOne(id, plan, plan.places[k]), x)
         == if Names(plan.places[k], x) then [plan.places[k].item] else []
  {
    hide CallsOf;
    var more := FillOne(id, plan, plan.places[k]);
    if Names(plan.places[k], x) {
      CallsOfAll(more, x);
    } else {
      CallsOfNone(more, x);
    }
  }

  lemma {:induction false} FillCalls(id: string, plan: Plan, x: string, n: nat)
    requires n <= |plan.places| && OnlyCalls(plan.places, x)
    ensures CallsOf(Fill(id, plan, n), x) == Planned(plan.places, x, n)
  {
    hide FillOne, OnlyCalls, Names, CallsOf;
    if n == 0 {
      CallsOfNone([], x);
    } else {
      FillCalls(id, plan, x, n - 1);
      FillOneCalls(id, plan, x, n - 1);
      CallsOfThen(Fill(id, plan, n - 1), FillOne(id, plan, plan.places[n - 1]), x);
    }
  }

  lemma {:induction false} GroupNames(places: seq<Place>, x: string, n: nat)
    requires n <= |places|
    ensures forall i :: 0 <= i < |Group(places, x, n)| ==> Group(places, x, n)[i].id == x
    ensures OnlyCalls(places, x) ==>
      forall i :: 0 <= i < |Group(places, x, n)| ==> Group(places, x, n)[i].FunctionCall?
  {
    if n > 0 {
      GroupNames(places, x, n - 1);
    }
  }

  /** What comes out at one place: all calls of the id at the last of its places, and none elsewhere. */
  lemma GatheredAtCalls(id: string, plan: Plan, x: string, last: nat, k: nat)
    requires k < |plan.places| && LastPlace(plan.places, x, last) && OnlyCalls(plan.places, x)
    ensures k == last ==>
      && GatheredAt(id, plan, k) == Group(plan.places, x, last + 1)
      && forall i :: 0 <= i < |GatheredAt(id, plan, k)| ==> IsCall(GatheredAt(id, plan, k)[i], x)
    ensures k != last ==> forall i :: 0 <= i < |GatheredAt(id, plan, k)| ==> !IsCall(GatheredAt(id, plan, k)[i], x)
  {
    hide Group, Merged;
    GroupNames(plan.places, x, last + 1);
    if plan.places[k].ItemPlace? && plan.places[k].item.id != x {
      GroupNames(plan.places, plan.places[k].item.id, k + 1);
    }
    if k < last {
      assert Names(plan.places[k], x) ==> Later(plan.places, x, k + 1);
    }
  }

  ghost predicate LastPlace(places: seq<Place>, x: string, last: nat) {
    last < |places| && Names(places[last], x) && forall k :: last < k < |places| ==> !Names(places[k], x)
  }

  /** The calls of an id come out together. */
  lemma {:induction false} GatheredCalls(id: string, plan: Plan, x: string, last: nat, n: nat)
    requires n <= |plan.places| && LastPlace(plan.places, x, last) && OnlyCalls(plan.places, x)
    ensures var out, low := Gathered(id, plan, n), |Gathered(id, plan, last)|;
      && (forall p :: 0 <= p < |out| ==>
            (IsCall(out[p], x) <==> last < n && low <= p < low + |Group(plan.places, x, last + 1)|))
      && (last < n ==> |out| >= low + |Group(plan.places, x, last + 1)|)
      && CallsOf(out, x) == if last < n then Group(plan.places, x, last + 1) else []
  {
    hide GatheredAt, Group, IsCall, LastPlace, OnlyCalls;
    if n > 0 {
      GatheredCalls(id, plan, x, last, n - 1);
      GatheredAtCalls(id, plan, x, last, n - 1);
      var before, more := Gathered(id, plan, n - 1), GatheredAt(id, plan, n - 1);
      CallsOfThen(before, more, x);
      if n - 1 == last {
        CallsOfAll(more, x);
      } else {
        CallsOfNone(more, x);
      }
    }
  }

  lemma {:induction false} GroupPast(places: seq<Place>, x: string, last: nat, n: nat)
    requires LastPlace(places, x, last) && last < n <= |places|
    ensures Group(places, x, n) == Group(places, x, last + 1)
  {
    hide Merged;
    if n > last + 1 {
      GroupPast(places, x, last, n - 1);
    }
  }

  lemma {:induction false} SameOneByOne(places: seq<Place>, x: string, n: nat, k: nat)
    requires n <= |places| && Group(places, x, n) == Planned(places, x, n)
    requires k < n && Names(places[k], x)
    ensures Merged(places, k) == places[k].item
  {
    hide Merged;
    SameLength(places, x, n - 1);
    var a, b := Group(places, x, n - 1), Planned(places, x, n - 1);
    assert a == b by {
      assert a == Group(places, x, n)[..|a|];
      assert b == Planned(places, x, n)[..|b|];
    }
    if k == n - 1 {
      assert Group(places, x, n)[|a|] == Merged(places, k);
      assert Planned(places, x, n)[|a|] == places[k].item;
    } else {
      SameOneByOne(places, x, n - 1, k);
    }
  }

  lemma {:induction false} SameLength(places: seq<Place>, x: string, n: nat)
    requires n <= |places|
    ensures |Group(places, x, n)| == |Planned(places, x, n)|
  {
    if n > 0 {
      SameLength(places, x, n - 1);
    }
  }

  lemma {:induction false} FillGrows(id: string, plan: Plan, m: nat, n: nat)
    requires m <= n <= |plan.places|
    ensures Fill(id, plan, m) <= Fill(id, plan, n)
    decreases n - m
  {
    hide FillOne;
    if m < n {
      FillGrows(id, plan, m, n - 1);
    }
  }

  /** Where a place's items stand in the meaning. */
  lemma FillAt(id: string, plan: Plan, k: nat, n: nat)
    requires k < n <= |plan.places| && FillOne(id, plan, plan.places[k]) != []
    ensures var at := |Fill(id, plan, k)|;
      at < |Fill(id, plan, k + 1)| <= |Fill(id, plan, n)|
      && Fill(id, plan, n)[at] == FillOne(id, plan, plan.places[k])[0]
  {
    FillGrows(id, plan, k + 1, n);
    hide FillOne;
  }

  lemma LastPlaceOf(places: seq<Place>, x: string, k: nat) returns (last: nat)
    requires k < |places| && Names(places[k], x)
    ensures k <= last && LastPlace(places, x, last)
    decreases |places| - k
  {
    hide Names;
    if j: nat :| k < j < |places| && Names(places[j], x) {
      last := LastPlaceOf(places, x, j);
    } else {
      last := k;
    }
  }

  /** The first item at a place is a call of the id exactly when the place names it. */
  lemma FirstAt(id: string, plan: Plan, k: nat, x: string)
    requires k < |plan.places| && OnlyCalls(plan.places, x) && FillOne(id, plan, plan.places[k]) != []
    ensures IsCall(FillOne(id, plan, plan.places[k])[0], x) <==> Names(plan.places[k], x)
  {}

  lemma NamedIsFilled(id: string, plan: Plan, k: nat, x: string)
    requires k < |plan.places| && Names(plan.places[k], x)
    ensures FillOne(id, plan, plan.places[k]) != []
  {}

  /** Calls of an id that stand apart in the meaning do not come out together. */
  lemma ApartIsDifferent(id: string, plan: Plan, x: string, last: nat, j: nat, m: nat, k: nat)
    requires LastPlace(plan.places, x, last) && OnlyCalls(plan.places, x)
    requires j < m < k < |plan.places| && Names(plan.places[j], x) && Names(plan.places[k], x)
    requires !Names(plan.places[m], x) && FillOne(id, plan, plan.places[m]) != []
    ensures Gathered(id, plan, |plan.places|) != Fill(id, plan, |plan.places|)
  {
    hide Gathered, Fill, FillOne, Group, LastPlace, OnlyCalls, Names, IsCall, CallsOf;
    var n := |plan.places|;
    NamedIsFilled(id, plan, j, x);
    NamedIsFilled(id, plan, k, x);
    FirstAt(id, plan, j, x);
    FirstAt(id, plan, m, x);
    FirstAt(id, plan, k, x);
    FillAt(id, plan, j, n);
    FillAt(id, plan, m, n);
    FillAt(id, plan, k, n);
    FillGrows(id, plan, j + 1, m);
    FillGrows(id, plan, m + 1, k);
    GatheredCalls(id, plan, x, last, n);
    var p, q, r := |Fill(id, plan, j)|, |Fill(id, plan, m)|, |Fill(id, plan, k)|;
    var whole := Fill(id, plan, n);
    assert p < q < r < |whole|;
    assert IsCall(whole[p], x) && !IsCall(whole[q], x) && IsCall(whole[r], x);
  }

  lemma OnlyCallsHere(places: seq<Place>, j: nat, k: nat)
    requires CallsShare(places) && j < k < |places| && places[j].ItemPlace? && Names(places[k], places[j].item.id)
    ensures OnlyCalls(places, places[j].item.id)
  {
    var x := places[j].item.id;
    forall m | 0 <= m < |places| && Names(places[m], x) ensures places[m].item.FunctionCall? {
      assert m < j ==> Names(places[j], places[m].item.id);
    }
  }

  lemma MeaningIsHarmless(id: string, plan: Plan)
    requires CallsShare(plan.places) && Gathered(id, plan, |plan.places|) == Fill(id, plan, |plan.places|)
    ensures HarmlessPlan(id, plan)
  {
    hide Gathered, Fill, FillOne, CallsShare;
    var places, n := plan.places, |plan.places|;
    forall j, k | 0 <= j < k < n && places[j].ItemPlace? && Names(places[k], places[j].item.id)
      ensures InputOf(places[k], places[j].item.id) == ""
      ensures forall m :: j < m < k ==>
        Names(places[m], places[j].item.id) || FillOne(id, plan, places[m]) == []
    {
      var x := places[j].item.id;
      OnlyCallsHere(places, j, k);
      var last := LastPlaceOf(places, x, k);
      GatheredCalls(id, plan, x, last, n);
      FillCalls(id, plan, x, n);
      GroupPast(places, x, last, n);
      SameOneByOne(places, x, n, k);
      assert Earlier(places, x, k);
      forall m | j < m < k ensures Names(places[m], x) || FillOne(id, plan, places[m]) == [] {
        if !Names(places[m], x) && FillOne(id, plan, places[m]) != [] {
          ApartIsDifferent(id, plan, x, last, j, m, k);
        }
      }
    }
  }

  /** What comes out is what the object means exactly when calls that share an id do no harm. */
  lemma GatheredIsMeaning(id: string, plan: Plan)
    requires CallsShare(plan.places)
    ensures Gathered(id, plan, |plan.places|) == Fill(id, plan, |plan.places|) <==> HarmlessPlan(id, plan)
  {
    hide HarmlessPlan, Gathered, Fill, CallsShare;
    if HarmlessPlan(id, plan) {
      HarmlessGivesMeaning(id, plan);
    }
    if Gathered(id, plan, |plan.places|) == Fill(id, plan, |plan.places|) {
      MeaningIsHarmless(id, plan);
    }
  }
}
