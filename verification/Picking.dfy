/** Lists read item by item through a function that may find nothing in an item. */
module Picking {
  import opened Wrappers

  /** What is found, in order. */
  function Picked<A, B>(pick: A -> Option<B>, items: seq<A>): (found: seq<B>)
    ensures |found| <= |items|
  {
    if |items| == 0 then [] else
      var before := Picked(pick, items[..|items| - 1]);
      match pick(items[|items| - 1]) case None => before case Some(x) => before + [x]
  }

  /** What is found, each once, in order of first appearance. */
  function Firsts<A, B(==)>(pick: A -> Option<B>, items: seq<A>): seq<B> {
    if |items| == 0 then [] else
      var before := Firsts(pick, items[..|items| - 1]);
      match pick(items[|items| - 1])
      case None => before
      case Some(x) => if x in before then before else before + [x]
  }

  function Listed<B>(x: Option<B>): seq<B> { if x.Some? then [x.value] else [] }

  lemma PickedStep<A, B>(pick: A -> Option<B>, items: seq<A>, item: A)
    ensures Picked(pick, items + [item]) == Picked(pick, items) + Listed(pick(item))
  {
    assert (items + [item])[..|items|] == items;
  }

  lemma FirstsStep<A, B>(pick: A -> Option<B>, items: seq<A>, item: A)
    ensures Firsts(pick, items + [item]) ==
      match pick(item)
      case None => Firsts(pick, items)
      case Some(x) => if x in Firsts(pick, items) then Firsts(pick, items) else Firsts(pick, items) + [x]
  {
    assert (items + [item])[..|items|] == items;
  }

  /** Nothing is found exactly when nothing is in any item. */
  lemma {:induction false} PickedNothingIff<A, B>(pick: A -> Option<B>, items: seq<A>)
    ensures |Picked(pick, items)| == 0 <==> forall i :: 0 <= i < |items| ==> pick(items[i]).None?
  {
    if |items| > 0 {
      PickedNothingIff(pick, items[..|items| - 1]);
    }
  }

  // ----- First occurrences -----

  method CollectFirsts<A, B(==)>(pick: A -> Option<B>, items: seq<A>) returns (found: seq<B>)
    ensures found == Firsts(pick, items)
  {
    found := [];
    var seen: set<B> := {};
    for i := 0 to |items|
      invariant found == Firsts(pick, items[..i])
      invariant seen == set x <- found
    {
      FirstsStep(pick, items[..i], items[i]);
      assert items[..i + 1] == items[..i] + [items[i]];
      var x := pick(items[i]);
      if x.None? || x.value in seen {
        continue;
      }
      seen := seen + {x.value};
      found := found + [x.value];
    }
    assert items[..|items|] == items;
  }

  /** Item by item, the list holds the given things. */
  ghost predicate Holds<A, B>(pick: A -> Option<B>, items: seq<A>, things: seq<B>) {
    |items| == |things| && forall i :: 0 <= i < |items| ==> pick(items[i]) == Some(things[i])
  }

  ghost predicate Distinct<B>(things: seq<B>) {
    forall i, j :: 0 <= i < j < |things| ==> things[i] != things[j]
  }

  /** Things that are all held are all found. */
  lemma {:induction false} HeldIsPicked<A, B>(pick: A -> Option<B>, items: seq<A>, things: seq<B>)
    requires Holds(pick, items, things)
    ensures Picked(pick, items) == things
  {
    if |items| > 0 {
      HeldIsPicked(pick, items[..|items| - 1], things[..|things| - 1]);
      assert things == things[..|things| - 1] + [things[|things| - 1]];
    }
  }

  /** Distinct ones are also their own first occurrences. */
  lemma {:induction false} DistinctAreFirsts<A, B>(pick: A -> Option<B>, items: seq<A>, things: seq<B>)
    requires Holds(pick, items, things) && Distinct(things)
    ensures Firsts(pick, items) == things
  {
    if |items| > 0 {
      var init, last := things[..|things| - 1], things[|things| - 1];
      DistinctAreFirsts(pick, items[..|items| - 1], init);
      assert last !in init;
      assert things == init + [last];
    }
  }

  /** More items in which nothing new is found add nothing. */
  lemma {:induction false} KnownAddsNothing<A, B>(pick: A -> Option<B>, items: seq<A>, more: seq<A>, known: seq<B>)
    requires known == Firsts(pick, items)
    requires forall i :: 0 <= i < |more| ==> pick(more[i]).Some? && pick(more[i]).value in known
    ensures Firsts(pick, items + more) == known
  {
    if |more| == 0 {
      assert items + more == items;
    } else {
      var init, last := more[..|more| - 1], more[|more| - 1];
      KnownAddsNothing(pick, items, init, known);
      FirstsStep(pick, items + init, last);
      assert items + more == items + init + [last];
    }
  }

  /** A thing is among the first occurrences exactly when some item holds it. */
  lemma {:induction false} FirstsIff<A, B>(pick: A -> Option<B>, items: seq<A>, x: B)
    ensures x in Firsts(pick, items) <==> exists i :: 0 <= i < |items| && pick(items[i]) == Some(x)
  {
    if |items| > 0 {
      var n := |items| - 1;
      FirstsIff(pick, items[..n], x);
      if i :| 0 <= i < n && pick(items[..n][i]) == Some(x) {
        assert pick(items[i]) == Some(x);
      }
      if i :| 0 <= i < |items| && pick(items[i]) == Some(x) {
        assert i < n ==> pick(items[..n][i]) == Some(x);
      }
    }
  }

  /** The places of the first occurrences, in order. */
  ghost predicate FirstPlaces<A, B>(pick: A -> Option<B>, items: seq<A>, found: seq<B>, at: seq<nat>) {
    && |at| == |found|
    && (forall i :: 0 <= i < |at| ==> at[i] < |items| && pick(items[at[i]]) == Some(found[i]))
    && (forall i, j :: 0 <= i < j < |at| ==> at[i] < at[j])
    && (forall i, p :: 0 <= i < |at| && 0 <= p < at[i] ==> pick(items[p]) != Some(found[i]))
  }

  lemma {:induction false} FirstsPlaced<A, B>(pick: A -> Option<B>, items: seq<A>) returns (at: seq<nat>)
    ensures FirstPlaces(pick, items, Firsts(pick, items), at)
  {
    if |items| == 0 {
      return [];
    }
    var init, last := items[..|items| - 1], items[|items| - 1];
    assert items == init + [last];
    at := FirstsPlaced(pick, init);
    var found := Firsts(pick, init);
    FirstsStep(pick, init, last);
    if pick(last).Some? && pick(last).value !in found {
      PlaceFirst(pick, init, last, found, at);
      at := at + [|init|];
    } else {
      PlacesStay(pick, init, last, found, at);
    }
  }

  lemma PlacesStay<A, B>(pick: A -> Option<B>, init: seq<A>, last: A, found: seq<B>, at: seq<nat>)
    requires FirstPlaces(pick, init, found, at)
    ensures FirstPlaces(pick, init + [last], found, at)
  {
  }

  lemma PlaceFirst<A, B>(pick: A -> Option<B>, init: seq<A>, last: A, found: seq<B>, at: seq<nat>)
    requires FirstPlaces(pick, init, found, at) && found == Firsts(pick, init)
    requires pick(last).Some? && pick(last).value !in found
    ensures FirstPlaces(pick, init + [last], found + [pick(last).value], at + [|init|])
  {
    forall p | 0 <= p < |init| ensures pick(init[p]) != pick(last) {
      FirstsIff(pick, init, pick(last).value);
    }
    PlaceNew(pick, init, last, pick(last).value, found, at);
  }

  lemma PlaceNew<A, B>(pick: A -> Option<B>, init: seq<A>, last: A, x: B, found: seq<B>, at: seq<nat>)
    requires FirstPlaces(pick, init, found, at) && pick(last) == Some(x)
    requires forall p :: 0 <= p < |init| ==> pick(init[p]) != pick(last)
    ensures FirstPlaces(pick, init + [last], found + [x], at + [|init|])
  {
  }

  function Itself<B>(x: B): Option<B> { Some(x) }

  /** Only what is found decides about first occurrences. */
  lemma {:induction false} FirstsOfPicked<A, B>(pick: A -> Option<B>, items: seq<A>)
    ensures Firsts(pick, items) == Firsts(Itself<B>, Picked(pick, items))
  {
    if |items| > 0 {
      var init := items[..|items| - 1];
      FirstsOfPicked(pick, init);
      if pick(items[|items| - 1]).Some? {
        FirstsStep(Itself<B>, Picked(pick, init), pick(items[|items| - 1]).value);
      }
    }
  }

  /** Reading what was found finds it again. */
  ghost predicate Settles<A(!new)>(pick: A -> Option<A>) {
    forall x :: pick(x).Some? ==> pick(pick(x).value) == pick(x)
  }

  lemma FirstsAgain<A(!new)>(pick: A -> Option<A>, items: seq<A>)
    requires Settles(pick)
    ensures Firsts(pick, Firsts(pick, items)) == Firsts(pick, items)
  {
    var found := Firsts(pick, items);
    var at := FirstsPlaced(pick, items);
    assert Distinct(found) by {
      forall i, j | 0 <= i < j < |found| ensures found[i] != found[j] {
        assert pick(items[at[i]]) == Some(found[i]);
      }
    }
    forall i | 0 <= i < |found| ensures pick(found[i]) == Some(found[i]) {
      assert pick(items[at[i]]) == Some(found[i]);
    }
    DistinctAreFirsts(pick, found, found);
  }

  lemma FirstsKept<A, B>(pick: A -> Option<B>, xs: seq<A>, ys: seq<A>, x: B)
    requires x in Firsts(pick, ys)
    ensures x in Firsts(pick, xs + ys)
  {
    FirstsIff(pick, ys, x);
    var i :| 0 <= i < |ys| && pick(ys[i]) == Some(x);
    assert (xs + ys)[|xs| + i] == ys[i];
    FirstsIff(pick, xs + ys, x);
  }

  function Extended<B(==)>(found: seq<B>, x: Option<B>): seq<B> {
    if x.None? || x.value in found then found else found + [x.value]
  }

  lemma FirstsExtended<A, B>(pick: A -> Option<B>, items: seq<A>)
    requires |items| > 0
    ensures Firsts(pick, items) == Extended(Firsts(pick, items[..|items| - 1]), pick(items[|items| - 1]))
  {
  }

  /** Two lists, each read first, are read together like the two as they were. */
  lemma {:induction false} FirstsTogether<A(!new)>(pick: A -> Option<A>, xs: seq<A>, ys: seq<A>)
    requires Settles(pick)
    ensures Firsts(pick, Firsts(pick, xs) + Firsts(pick, ys)) == Firsts(pick, xs + ys)
  {
    if |ys| == 0 {
      FirstsAgain(pick, xs);
      assert xs + ys == xs && Firsts(pick, xs) + Firsts(pick, ys) == Firsts(pick, xs);
    } else {
      var init, last, all := ys[..|ys| - 1], ys[|ys| - 1], xs + ys;
      FirstsTogether(pick, xs, init);
      FirstsExtended(pick, ys);
      FirstsExtended(pick, all);
      assert all[..|all| - 1] == xs + init && all[|all| - 1] == last;
      if pick(last).Some? && pick(last).value in Firsts(pick, init) {
        FirstsKept(pick, xs, init, pick(last).value);
      }
      TogetherStep(pick, Firsts(pick, xs), Firsts(pick, init), Firsts(pick, xs + init), last);
    }
  }

  lemma TogetherStep<A(!new)>(pick: A -> Option<A>, first: seq<A>, second: seq<A>, known: seq<A>, last: A)
    requires Settles(pick) && Firsts(pick, first + second) == known
    requires pick(last).Some? && pick(last).value in second ==> pick(last).value in known
    ensures Firsts(pick, first + Extended(second, pick(last))) == Extended(known, pick(last))
  {
    if pick(last).Some? && pick(last).value !in second {
      var x := pick(last).value;
      FirstsExtended(pick, first + second + [x]);
      assert first + (second + [x]) == first + second + [x];
      assert (first + second + [x])[..|first + second|] == first + second;
    }
  }

  // ----- Order -----

  lemma {:induction false} PickedConcat<A, B>(pick: A -> Option<B>, xs: seq<A>, ys: seq<A>)
    ensures Picked(pick, xs + ys) == Picked(pick, xs) + Picked(pick, ys)
  {
    if |ys| == 0 {
      assert xs + ys == xs;
    } else {
      var init, last := ys[..|ys| - 1], ys[|ys| - 1];
      PickedConcat(pick, xs, init);
      PickedStep(pick, xs + init, last);
      assert xs + ys == xs + init + [last];
    }
  }

  lemma PickedAround<A, B>(pick: A -> Option<B>, head: seq<A>, x: A, tail: seq<A>)
    ensures Picked(pick, head + [x] + tail) == Picked(pick, head) + Listed(pick(x)) + Picked(pick, tail)
  {
    PickedConcat(pick, head + [x], tail);
    PickedStep(pick, head, x);
  }

  lemma SameWith<B>(all: seq<B>, xs: seq<B>, ys: seq<B>, zs: seq<B>)
    requires multiset(all) == multiset(xs + zs)
    ensures multiset(all + ys) == multiset(xs + ys + zs)
  {
    assert multiset(all + ys) == multiset(all) + multiset(ys);
    assert multiset(xs + ys + zs) == multiset(xs + zs) + multiset(ys);
  }

  lemma PutBack<A, B>(pick: A -> Option<B>, init: seq<A>, x: A, head: seq<A>, tail: seq<A>)
    requires multiset(Picked(pick, init)) == multiset(Picked(pick, head + tail))
    ensures multiset(Picked(pick, init + [x])) == multiset(Picked(pick, head + [x] + tail))
  {
    PickedConcat(pick, head, tail);
    PickedAround(pick, head, x, tail);
    PickedStep(pick, init, x);
    SameWith(Picked(pick, init), Picked(pick, head), Listed(pick(x)), Picked(pick, tail));
  }

  /** Taking the same item out of two permutations of each other. */
  lemma SameWithout<A>(init: seq<A>, x: A, head: seq<A>, tail: seq<A>)
    requires multiset(init + [x]) == multiset(head + [x] + tail)
    ensures multiset(init) == multiset(head + tail)
  {
    assert multiset(init) == multiset(init + [x]) - multiset{x};
    assert multiset(head + tail) == multiset(head + [x] + tail) - multiset{x};
  }

  lemma SameLength<A>(xs: seq<A>, ys: seq<A>)
    requires multiset(xs) == multiset(ys)
    ensures |xs| == |ys|
  {
    assert |multiset(xs)| == |xs| && |multiset(ys)| == |ys|;
  }

  /** The last item of one permutation, found in the other, and what surrounds it there. */
  lemma FindLast<A>(xs: seq<A>, ys: seq<A>) returns (head: seq<A>, tail: seq<A>)
    requires multiset(xs) == multiset(ys) && |xs| > 0
    ensures ys == head + [xs[|xs| - 1]] + tail
    ensures multiset(xs[..|xs| - 1]) == multiset(head + tail)
  {
    var init, x := xs[..|xs| - 1], xs[|xs| - 1];
    assert x in multiset(ys) by { assert x in multiset(xs); }
    var i :| 0 <= i < |ys| && ys[i] == x;
    head, tail := ys[..i], ys[i + 1..];
    assert xs == init + [x] && ys == head + [x] + tail;
    SameWithout(init, x, head, tail);
  }

  /** Permuted items yield a permutation of what is found. */
  lemma {:induction false} PickedPermutation<A, B>(pick: A -> Option<B>, xs: seq<A>, ys: seq<A>)
    requires multiset(xs) == multiset(ys)
    ensures multiset(Picked(pick, xs)) == multiset(Picked(pick, ys))
    decreases |xs|, 1
  {
    SameLength(xs, ys);
    if |xs| == 0 {
      assert xs == ys;
    } else {
      var head, tail := FindLast(xs, ys);
      PermutationStep(pick, xs, head, tail);
    }
  }

  lemma {:induction false} PermutationStep<A, B>(pick: A -> Option<B>, xs: seq<A>, head: seq<A>, tail: seq<A>)
    requires |xs| > 0 && multiset(xs[..|xs| - 1]) == multiset(head + tail)
    ensures multiset(Picked(pick, xs)) == multiset(Picked(pick, head + [xs[|xs| - 1]] + tail))
    decreases |xs|, 0
  {
    var init, x := xs[..|xs| - 1], xs[|xs| - 1];
    PickedPermutation(pick, init, head + tail);
    PutBack(pick, init, x, head, tail);
    assert xs == init + [x];
  }
}
