/** Shuffles as permutations: which arrangements the possible choices reach, and how often. */
module Shuffling {

  function Swap<T>(items: seq<T>, i: nat, j: nat): (swapped: seq<T>)
    requires i < |items| && j < |items|
    ensures |swapped| == |items|
  {
    items[i := items[j]][j := items[i]]
  }

  /** What the shuffle can draw: a place at or before each place. */
  ghost predicate Choosable(choices: seq<nat>) {
    forall i :: 0 <= i < |choices| ==> choices[i] <= i
  }

  /** The items after each place in turn was swapped with the chosen one. */
  function Arrange<T>(items: seq<T>, choices: seq<nat>): (arranged: seq<T>)
    requires |choices| <= |items| && Choosable(choices)
    ensures |arranged| == |items|
    decreases |choices|
  {
    if choices == [] then items
    else
      var k := |choices| - 1;
      Swap(Arrange(items, choices[..k]), k, choices[k])
  }

  method SwapPlaces<T>(values: array<T>, i: nat, j: nat)
    requires i < values.Length && j < values.Length
    modifies values
    ensures values[..] == Swap(old(values[..]), i, j)
  {
    values[i], values[j] := values[j], values[i];
  }

  lemma ArrangeMore<T>(items: seq<T>, choices: seq<nat>, choice: nat)
    requires |choices| < |items| && Choosable(choices) && choice <= |choices|
    ensures Arrange(items, choices + [choice]) == Swap(Arrange(items, choices), |choices|, choice)
  {
    assert (choices + [choice])[..|choices|] == choices;
  }

  lemma {:induction false} ArrangeKeepsRest<T>(items: seq<T>, choices: seq<nat>, i: nat)
    requires |choices| <= i < |items| && Choosable(choices)
    ensures Arrange(items, choices)[i] == items[i]
    decreases |choices|
  {
    if choices != [] {
      ArrangeKeepsRest(items, choices[..|choices| - 1], i);
    }
  }

  lemma SwapPermutes<T>(items: seq<T>, i: nat, j: nat)
    requires i < |items| && j < |items|
    ensures multiset(Swap(items, i, j)) == multiset(items)
    ensures Swap(Swap(items, i, j), i, j) == items
  {}

  /** A shuffle only reorders. */
  lemma {:induction false} ArrangePermutes<T>(items: seq<T>, choices: seq<nat>)
    requires |choices| <= |items| && Choosable(choices)
    ensures multiset(Arrange(items, choices)) == multiset(items)
    decreases |choices|
  {
    if choices != [] {
      var k := |choices| - 1;
      ArrangePermutes(items, choices[..k]);
      SwapPermutes(Arrange(items, choices[..k]), k, choices[k]);
    }
  }

  ghost predicate Distinct<T(!new)>(items: seq<T>) {
    forall i, j :: 0 <= i < j < |items| ==> items[i] != items[j]
  }

  /** Different choices lead to different arrangements of distinct items. */
  lemma {:induction false} ArrangeInjective<T(!new)>(items: seq<T>, c: seq<nat>, d: seq<nat>)
    requires Distinct(items) && |c| == |d| <= |items| && Choosable(c) && Choosable(d)
    requires Arrange(items, c) == Arrange(items, d)
    ensures c == d
    decreases |c|
  {
    hide Distinct, Arrange, Swap;
    if c != [] {
      var k := |c| - 1;
      LastChoiceShows(items, c);
      LastChoiceShows(items, d);
      ArrangePermutes(items, c);
      DistinctByMultiset(items, Arrange(items, c));
      SamePlace(Arrange(items, c), c[k], d[k]);
      ArrangeInjective(items, c[..k], d[..k]);
      assert c == c[..k] + [c[k]] && d == d[..k] + [d[k]];
    }
  }

  /** The last choice can be read off the arrangement, and swapping it back undoes it. */
  lemma LastChoiceShows<T>(items: seq<T>, choices: seq<nat>)
    requires 0 < |choices| <= |items| && Choosable(choices)
    ensures var k := |choices| - 1;
            && Arrange(items, choices)[choices[k]] == items[k]
            && Swap(Arrange(items, choices), k, choices[k]) == Arrange(items, choices[..k])
  {
    var k := |choices| - 1;
    ArrangeKeepsRest(items, choices[..k], k);
    SwapPermutes(Arrange(items, choices[..k]), k, choices[k]);
  }

  lemma SamePlace<T(!new)>(items: seq<T>, i: nat, j: nat)
    requires Distinct(items) && i < |items| && j < |items| && items[i] == items[j]
    ensures i == j
  {}

  lemma {:induction false} DistinctByMultiset<T(!new)>(items: seq<T>, others: seq<T>)
    requires Distinct(items) && multiset(items) == multiset(others)
    ensures Distinct(others)
  {
    forall i, j | 0 <= i < j < |others|
      ensures others[i] != others[j]
    {
      if others[i] == others[j] {
        TwiceCounted(others, i, j);
        DistinctCountsOnce(items, others[i]);
      }
    }
  }

  lemma TwiceCounted<T>(items: seq<T>, i: nat, j: nat)
    requires i < j < |items| && items[i] == items[j]
    ensures multiset(items)[items[i]] >= 2
  {
    assert items == items[..j] + items[j..];
    assert items[..j][i] == items[i] && items[j..][0] == items[i];
    assert items[i] in multiset(items[..j]) && items[i] in multiset(items[j..]);
  }

  lemma {:induction false} DistinctCountsOnce<T(!new)>(items: seq<T>, x: T)
    requires Distinct(items)
    ensures multiset(items)[x] <= 1
  {
    if items != [] {
      var front, last := items[..|items| - 1], items[|items| - 1];
      assert items == front + [last];
      DistinctCountsOnce(front, x);
      assert last !in front;
    }
  }

  lemma PlaceOf<T(!new)>(items: seq<T>, target: seq<T>, k: nat) returns (place: nat)
    requires Distinct(items) && k < |items| == |target|
    requires multiset(target) == multiset(items) && target[k + 1..] == items[k + 1..]
    ensures place <= k && target[place] == items[k]
    ensures Swap(target, k, place)[k..] == items[k..]
  {
    assert items[k] in multiset(target);
    place :| place < |target| && target[place] == items[k];
    forall i | k < i < |items|
      ensures target[i] == items[i] != items[k]
    {
      assert target[k + 1..][i - k - 1] == items[k + 1..][i - k - 1];
    }
  }

  /** The choices that lead to an arrangement which only touched the first `count` places. */
  lemma {:induction false} ChoicesFor<T(!new)>(items: seq<T>, target: seq<T>, count: nat) returns (choices: seq<nat>)
    requires Distinct(items) && count <= |items| == |target|
    requires multiset(target) == multiset(items) && target[count..] == items[count..]
    decreases count
    ensures |choices| == count && Choosable(choices) && Arrange(items, choices) == target
  {
    if count == 0 {
      choices := [];
      assert target == target[0..] && items == items[0..];
    } else {
      var k := count - 1;
      var place := PlaceOf(items, target, k);
      SwapPermutes(target, k, place);
      var before := ChoicesFor(items, Swap(target, k, place), k);
      choices := before + [place];
      assert choices[..k] == before;
    }
  }

  /**
   The shuffle is fair: the ways to choose correspond one to one to the arrangements of the items,
   so independent uniform choices reach every arrangement with the same probability.
   */
  lemma ShuffleReachesEachArrangementOnce<T(!new)>(items: seq<T>, target: seq<T>)
    requires Distinct(items) && multiset(target) == multiset(items)
    ensures exists choices ::
              && |choices| == |items| && Choosable(choices) && Arrange(items, choices) == target
              && forall others :: |others| == |items| && Choosable(others) && Arrange(items, others) == target ==>
                   others == choices
  {
    SameSize(items, target);
    var choices := ChoicesFor(items, target, |items|);
    forall others | |others| == |items| && Choosable(others) && Arrange(items, others) == target
      ensures others == choices
    {
      ArrangeInjective(items, others, choices);
    }
  }

  lemma SameSize<T>(a: seq<T>, b: seq<T>)
    requires multiset(a) == multiset(b)
    ensures |a| == |b|
  {
    assert |multiset(a)| == |a| && |multiset(b)| == |b|;
  }
}
