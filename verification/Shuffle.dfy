/**
 * The in-place Fisher-Yates shuffle. An index list gives, for each position i, the position js[i] <= i it is swapped
 * with; the loop reads it from the highest position down.
 */
module Shuffle {
  import opened Rng
  import opened Sums

  predicate IsIndices(js: seq<nat>) {
    forall i :: 0 <= i < |js| ==> js[i] <= i
  }

  /** The position the draw at cursor offset + i selects among 0..i. */
  function Drawn(stream: Stream, offset: nat, i: nat): (j: nat)
    ensures j <= i
  {
    Scale(stream(offset + i), i + 1, DRAWS)
  }

  /** The indices the draws at cursors offset, offset + 1, ... select for n positions. */
  function Indices(stream: Stream, offset: nat, n: nat): (js: seq<nat>)
    ensures |js| == n && IsIndices(js)
  {
    seq(n, i requires 0 <= i < n => Drawn(stream, offset, i))
  }

  function Swapped<T>(items: seq<T>, i: nat, j: nat): (swapped: seq<T>)
    requires i < |items| && j < |items|
    ensures |swapped| == |items|
    ensures multiset(swapped) == multiset(items)
  {
    items[i := items[j]][j := items[i]]
  }

  /** What is left to shuffle once the last position has received the item at j. */
  function Rest<T>(items: seq<T>, j: nat): (rest: seq<T>)
    requires j < |items|
    ensures |rest| == |items| - 1
  {
    Swapped(items, |items| - 1, j)[..|items| - 1]
  }

  function Shuffled<T>(items: seq<T>, js: seq<nat>): (shuffled: seq<T>)
    requires |js| == |items| && IsIndices(js)
    ensures |shuffled| == |items|
    decreases |items|
  {
    if items == [] then []
    else
      var last := |items| - 1;
      Shuffled(Rest(items, js[last]), js[..last]) + [items[js[last]]]
  }

  /** Positions i and up are final; the ones below are still to be shuffled. */
  ghost predicate Reached<T>(items: seq<T>, js: seq<nat>, now: seq<T>, i: nat)
    requires |now| == |items| == |js| && IsIndices(js) && i <= |js|
  {
    Shuffled(items, js) == Shuffled(now[..i], js[..i]) + now[i..]
  }

  /** What one iteration leaves below position i is what one level of the recursion goes on with. */
  lemma SwapBelow<T>(before: seq<T>, i: nat, j: nat)
    requires j <= i < |before|
    ensures Swapped(before, i, j)[..i] == Rest(before[..i + 1], j)
  {
    var prefix := before[..i + 1];
    assert Swapped(before, i, j)[..i + 1] == Swapped(prefix, i, j);
    assert Swapped(before, i, j)[..i] == Swapped(before, i, j)[..i + 1][..i];
  }

  lemma SwapAbove<T>(before: seq<T>, i: nat, j: nat)
    requires j <= i < |before|
    ensures Swapped(before, i, j)[i..] == [before[j]] + before[i + 1..]
  {
    assert Swapped(before, i, j)[i] == before[j];
  }

  /** One iteration of the loop is one level of the recursion. */
  lemma ReachedStep<T>(items: seq<T>, js: seq<nat>, before: seq<T>, after: seq<T>, i: nat)
    requires |before| == |items| == |js| && IsIndices(js) && i < |js|
    requires Reached(items, js, before, i + 1) && after == before[i := before[js[i]]][js[i] := before[i]]
    ensures Reached(items, js, after, i)
  {
    assert after == Swapped(before, i, js[i]);
    SwapBelow(before, i, js[i]);
    SwapAbove(before, i, js[i]);
    assert js[..i + 1][..i] == js[..i];
    ShuffledUnfold(before[..i + 1], js[..i + 1]);
    hide Shuffled;
    hide Rest;
    hide Swapped;
    Associate(Shuffled(after[..i], js[..i]), [before[js[i]]], before[i + 1..]);
  }

  lemma Associate<T>(xs: seq<T>, ys: seq<T>, zs: seq<T>)
    ensures xs + ys + zs == xs + (ys + zs)
  {
  }

  lemma ReachedStart<T>(items: seq<T>, js: seq<nat>)
    requires |items| == |js| && IsIndices(js)
    ensures Reached(items, js, items, |items|)
  {
    assert items[..|items|] == items && js[..|items|] == js;
  }

  lemma ReachedEnd<T>(items: seq<T>, js: seq<nat>, now: seq<T>, i: nat)
    requires |now| == |items| == |js| && IsIndices(js) && i <= |js| && i <= 1
    requires Reached(items, js, now, i)
    ensures now == Shuffled(items, js)
  {
    if i == 1 {
      ReachedStep(items, js, now, now, 0);
    }
    assert now[0..] == now;
  }

  lemma IndexIsDrawn(stream: Stream, offset: nat, n: nat, i: nat)
    requires i < n
    ensures Indices(stream, offset, n)[i] == Drawn(stream, offset, i)
  {
  }

  /** Swaps every position but the first, from the top down, with a drawn position at or below it. */
  method ShuffleInPlace<T>(result: array<T>, stream: Stream, offset: nat)
    modifies result
    ensures result[..] == Shuffled(old(result[..]), Indices(stream, offset, result.Length))
  {
    hide *;
    ghost var items, js := result[..], Indices(stream, offset, result.Length);
    ReachedStart(items, js);
    var i := result.Length - 1;
    while i > 0
      invariant -1 <= i < result.Length == |items|
      invariant Reached(items, js, result[..], i + 1)
    {
      ghost var before := result[..];
      IndexIsDrawn(stream, offset, result.Length, i);
      var j := Drawn(stream, offset, i);
      result[i], result[j] := result[j], result[i];
      assert result[..] == before[i := before[j]][j := before[i]];
      ReachedStep(items, js, before, result[..], i);
      i := i - 1;
    }
    ReachedEnd(items, js, result[..], i + 1);
  }

  /** Shuffles a copy of the items. */
  method SeededShuffle<T>(items: seq<T>, stream: Stream, offset: nat) returns (shuffled: seq<T>)
    ensures shuffled == Shuffled(items, Indices(stream, offset, |items|))
  {
    var result := new T[|items|](i requires 0 <= i < |items| => items[i]);
    assert result[..] == items;
    ShuffleInPlace(result, stream, offset);
    return result[..];
  }

  lemma {:induction false} ShuffledIsPermutation<T>(items: seq<T>, js: seq<nat>)
    requires |js| == |items| && IsIndices(js)
    ensures multiset(Shuffled(items, js)) == multiset(items)
    decreases |items|
  {
    if items != [] {
      var last := |items| - 1;
      var j := js[last];
      ShuffledIsPermutation(Rest(items, j), js[..last]);
      assert Swapped(items, last, j) == Rest(items, j) + [items[j]];
    }
  }

  lemma RestAt<T>(items: seq<T>, j: nat, k: nat)
    requires j < |items| && k < |items| - 1
    ensures Rest(items, j)[k] == if k == j then items[|items| - 1] else items[k]
  {
  }

  lemma RestMultiset<T>(items: seq<T>, j: nat)
    requires j < |items|
    ensures multiset(Rest(items, j)) == multiset(items) - multiset{items[j]}
  {
    assert Swapped(items, |items| - 1, j) == Rest(items, j) + [items[j]];
  }

  lemma RestIsDistinct<T(!new)>(items: seq<T>, j: nat)
    requires j < |items| && Distinct(items)
    ensures Distinct(Rest(items, j)) && items[j] !in Rest(items, j)
  {
    forall k | 0 <= k < |items| - 1
      ensures Rest(items, j)[k] == if k == j then items[|items| - 1] else items[k]
    {
      RestAt(items, j, k);
    }
  }

  lemma ShuffledUnfold<T>(items: seq<T>, js: seq<nat>)
    requires |js| == |items| > 0 && IsIndices(js)
    ensures var last := |items| - 1;
            && Shuffled(items, js) == Shuffled(Rest(items, js[last]), js[..last]) + [items[js[last]]]
            && Shuffled(items, js)[..last] == Shuffled(Rest(items, js[last]), js[..last])
            && Shuffled(items, js)[last] == items[js[last]]
  {
  }

  function IndexOf<T(==)>(items: seq<T>, x: T): (i: nat)
    requires items != []
    ensures i < |items| && (x in items ==> items[i] == x)
  {
    if |items| == 1 || items[0] == x then 0 else 1 + IndexOf(items[1..], x)
  }

  /** Reads the indices back from an arrangement of the items. */
  function Unshuffled<T(==)>(items: seq<T>, arrangement: seq<T>): (js: seq<nat>)
    requires |arrangement| == |items|
    ensures |js| == |items| && IsIndices(js)
    decreases |items|
  {
    if items == [] then []
    else
      var last := |items| - 1;
      var j := IndexOf(items, arrangement[last]);
      Unshuffled(Rest(items, j), arrangement[..last]) + [j]
  }

  lemma UnshuffledUnfold<T>(items: seq<T>, arrangement: seq<T>, j: nat)
    requires |arrangement| == |items| > 0 && j == IndexOf(items, arrangement[|items| - 1])
    ensures Unshuffled(items, arrangement) == Unshuffled(Rest(items, j), arrangement[..|items| - 1]) + [j]
  {
  }

  lemma SameSize<T>(xs: seq<T>, ys: seq<T>)
    requires multiset(xs) == multiset(ys)
    ensures |xs| == |ys|
  {
    assert |multiset(xs)| == |xs| && |multiset(ys)| == |ys|;
  }

  /** Taking the last item out of both lists leaves the same items. */
  lemma IndexOfLast<T>(items: seq<T>, arrangement: seq<T>) returns (j: nat)
    requires items != [] && multiset(arrangement) == multiset(items)
    ensures |arrangement| == |items| && j == IndexOf(items, arrangement[|items| - 1])
    ensures j < |items| && items[j] == arrangement[|items| - 1]
    ensures multiset(arrangement[..|items| - 1]) == multiset(Rest(items, j))
  {
    SameSize(items, arrangement);
    var x := arrangement[|items| - 1];
    assert arrangement == arrangement[..|items| - 1] + [x];
    assert x in multiset(items);
    j := IndexOf(items, x);
    RestMultiset(items, j);
  }

  /** Every arrangement of the items is reached by some indices ... */
  lemma {:induction false} ShuffleIsOnto<T>(items: seq<T>, arrangement: seq<T>)
    requires multiset(arrangement) == multiset(items)
    ensures |arrangement| == |items|
    ensures Shuffled(items, Unshuffled(items, arrangement)) == arrangement
    decreases |items|
  {
    if items == [] {
      SameSize(items, arrangement);
    } else {
      var j := IndexOfLast(items, arrangement);
      ShuffleIsOnto(Rest(items, j), arrangement[..|items| - 1]);
      OntoStep(items, arrangement, j);
    }
  }

  lemma OntoStep<T>(items: seq<T>, arrangement: seq<T>, j: nat)
    requires |arrangement| == |items| > 0 && j < |items| && j == IndexOf(items, arrangement[|items| - 1])
    requires items[j] == arrangement[|items| - 1]
    requires var front := arrangement[..|items| - 1]; Shuffled(Rest(items, j), Unshuffled(Rest(items, j), front)) == front
    ensures Shuffled(items, Unshuffled(items, arrangement)) == arrangement
  {
    hide *;
    var last := |items| - 1;
    UnshuffledUnfold(items, arrangement, j);
    var js := Unshuffled(Rest(items, j), arrangement[..last]);
    assert (js + [j])[..last] == js;
    ShuffledUnfold(items, js + [j]);
    assert arrangement == arrangement[..last] + [arrangement[last]];
  }

  lemma IndicesPrefix(js: seq<nat>, n: nat)
    requires IsIndices(js) && n < |js|
    ensures IsIndices(js[..n]) && js[n] <= n
  {
  }

  lemma DistinctIndex<T(!new)>(items: seq<T>, i: nat)
    requires Distinct(items) && i < |items|
    ensures IndexOf(items, items[i]) == i
  {
  }

  /** ... and, when the items differ, by only one choice of indices. */
  lemma {:induction false} ShuffleIsOneToOne<T(!new)>(items: seq<T>, js: seq<nat>)
    requires |js| == |items| && IsIndices(js) && Distinct(items)
    ensures Unshuffled(items, Shuffled(items, js)) == js
    decreases |items|
  {
    if items != [] {
      hide *;
      var last := |items| - 1;
      IndicesPrefix(js, last);
      var j := js[last];
      RestIsDistinct(items, j);
      ShuffledUnfold(items, js);
      ShuffleIsOneToOne(Rest(items, j), js[..last]);
      DistinctIndex(items, j);
      UnshuffledUnfold(items, Shuffled(items, js), j);
      assert js == js[..last] + [j];
    }
  }
}
