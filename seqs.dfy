/**
 * The array operations the resume builder uses everywhere: `map`, `filter`,
 * removal by position and the swap of two positions, each with the contract
 * that characterises it.
 */
module Seqs {

  /** `xs.map(f)`: same length, and position `i` holds `f(xs[i])`, so the
      order of the input is kept. */
  function MapSeq<T, U>(xs: seq<T>, f: T -> U): (r: seq<U>)
    ensures |r| == |xs|
    ensures forall i :: 0 <= i < |xs| ==> r[i] == f(xs[i])
  {
    if xs == [] then [] else [f(xs[0])] + MapSeq(xs[1..], f)
  }

  /** `xs.filter(keep)`: exactly the elements that pass, never more of them. */
  function Filter<T>(xs: seq<T>, keep: T -> bool): (r: seq<T>)
    ensures |r| <= |xs|
    ensures forall i :: 0 <= i < |r| ==> r[i] in xs && keep(r[i])
    ensures forall i :: 0 <= i < |xs| && keep(xs[i]) ==> xs[i] in r
  {
    if xs == [] then [] else (if keep(xs[0]) then [xs[0]] else []) + Filter(xs[1..], keep)
  }

  /** Filtering distributes over concatenation: the survivors keep their
      relative order. */
  lemma {:induction false} FilterAppend<T>(a: seq<T>, b: seq<T>, keep: T -> bool)
    ensures Filter(a + b, keep) == Filter(a, keep) + Filter(b, keep)
  {
    if a == [] {
      assert a + b == b;
    } else {
      assert (a + b)[1..] == a[1..] + b;
      FilterAppend(a[1..], b, keep);
    }
  }

  /** `filter` looks at the first element and then at the rest. */
  lemma FilterCons<T>(x: T, rest: seq<T>, keep: T -> bool)
    ensures Filter([x] + rest, keep) == (if keep(x) then [x] else []) + Filter(rest, keep)
  {
    assert ([x] + rest)[1..] == rest;
  }

  /** An element the filter rejects can be left out beforehand. */
  lemma FilterSkipsRejected<T>(a: seq<T>, x: T, b: seq<T>, keep: T -> bool)
    requires !keep(x)
    ensures Filter(a + [x] + b, keep) == Filter(a + b, keep)
  {
    var fa, fb := Filter(a, keep), Filter(b, keep);
    calc {
      Filter(a + [x] + b, keep);
      { FilterAppend(a + [x], b, keep); }
      Filter(a + [x], keep) + fb;
      { FilterAppend(a, [x], keep); assert Filter([x], keep) == []; }
      fa + [] + fb;
      { FilterAppend(a, b, keep); }
      Filter(a + b, keep);
    }
  }

  /** A filter that every element passes changes nothing. */
  lemma {:induction false} FilterKeepsAll<T>(xs: seq<T>, keep: T -> bool)
    requires forall i :: 0 <= i < |xs| ==> keep(xs[i])
    ensures Filter(xs, keep) == xs
  {
    if xs != [] {
      FilterKeepsAll(xs[1..], keep);
    }
  }

  /** Every occurrence of a kept value survives: the count of a passing value
      is unchanged and the count of a failing one drops to zero. */
  lemma {:induction false} FilterCounts<T>(xs: seq<T>, keep: T -> bool, x: T)
    ensures multiset(Filter(xs, keep))[x] == if keep(x) then multiset(xs)[x] else 0
  {
    if xs != [] {
      FilterCounts(xs[1..], keep, x);
      assert xs == [xs[0]] + xs[1..];
    }
  }

  /** `xs.filter((_, i) => i !== idx)`. */
  function RemoveAt<T>(xs: seq<T>, idx: int): (r: seq<T>)
    ensures 0 <= idx < |xs| ==> |r| == |xs| - 1
    ensures 0 <= idx < |xs| ==> forall j :: 0 <= j < idx ==> r[j] == xs[j]
    ensures 0 <= idx < |xs| ==> forall j :: idx <= j < |r| ==> r[j] == xs[j + 1]
    ensures !(0 <= idx < |xs|) ==> r == xs
  {
    if 0 <= idx < |xs| then xs[..idx] + xs[idx + 1..] else xs
  }

  /** Replacing position `i` is cutting the sequence around it. */
  lemma UpdateAsSplit<T>(xs: seq<T>, i: nat, v: T)
    requires i < |xs|
    ensures xs[i := v] == xs[..i] + [v] + xs[i + 1..]
  {
  }

  /** `[a[i], a[i + 1]] = [a[i + 1], a[i]]` on a copy: the exchange of two
      neighbouring positions. */
  function SwapAdjacent<T>(xs: seq<T>, i: nat): (r: seq<T>)
    requires i + 1 < |xs|
  {
    xs[i := xs[i + 1]][i + 1 := xs[i]]
  }

  /** The swap exchanges the two positions, leaves every other position alone
      and is a permutation. */
  lemma SwapAdjacentIsPermutation<T>(xs: seq<T>, i: nat)
    requires i + 1 < |xs|
    ensures |SwapAdjacent(xs, i)| == |xs|
    ensures SwapAdjacent(xs, i)[i] == xs[i + 1] && SwapAdjacent(xs, i)[i + 1] == xs[i]
    ensures forall k :: 0 <= k < |xs| && k != i && k != i + 1 ==> SwapAdjacent(xs, i)[k] == xs[k]
    ensures multiset(SwapAdjacent(xs, i)) == multiset(xs)
  {
    var r := SwapAdjacent(xs, i);
    assert xs == xs[..i] + [xs[i], xs[i + 1]] + xs[i + 2..];
    assert r == xs[..i] + [xs[i + 1], xs[i]] + xs[i + 2..];
  }

  /** Swapping the same neighbours twice restores the sequence. */
  lemma SwapAdjacentTwice<T>(xs: seq<T>, i: nat)
    requires i + 1 < |xs|
    ensures SwapAdjacent(SwapAdjacent(xs, i), i) == xs
  {
  }
}
