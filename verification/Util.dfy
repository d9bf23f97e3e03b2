/** Small things several modules need: options, and functions on sequences. */
module Util {

  datatype Option<+T> = None | Some(value: T)

  function Elements<T>(xs: seq<T>): set<T> {
    set x | x in xs
  }

  predicate AreDistinct<T(==)>(xs: seq<T>) {
    forall i, j :: 0 <= i < j < |xs| ==> xs[i] != xs[j]
  }

  lemma ElementsOfAppended<T>(xs: seq<T>, x: T)
    ensures Elements(xs + [x]) == Elements(xs) + {x}
  {
  }

  lemma ElementsOfSnoc<T>(xs: seq<T>, i: nat)
    requires i < |xs|
    ensures Elements(xs[..i + 1]) == Elements(xs[..i]) + {xs[i]}
  {
    assert xs[..i + 1] == xs[..i] + [xs[i]];
    ElementsOfAppended(xs[..i], xs[i]);
  }

  function Reversed<T>(xs: seq<T>): (ys: seq<T>)
    ensures |ys| == |xs| && forall i :: 0 <= i < |xs| ==> ys[i] == xs[|xs| - 1 - i]
  {
    seq(|xs|, i requires 0 <= i < |xs| => xs[|xs| - 1 - i])
  }

  lemma AppendAssociates<T>(xs: seq<T>, ys: seq<T>, zs: seq<T>)
    ensures (xs + ys) + zs == xs + (ys + zs)
  {
  }

  lemma DropOfAppended<T>(xs: seq<T>, ys: seq<T>, n: nat)
    requires n <= |xs|
    ensures (xs + ys)[n..] == xs[n..] + ys
  {
  }

  lemma ReversedAppend<T>(xs: seq<T>, ys: seq<T>)
    ensures Reversed(xs + ys) == Reversed(ys) + Reversed(xs)
  {
  }

  /** How a number is written. */
  function Decimal(n: nat): string {
    (if n < 10 then "" else Decimal(n / 10)) + ["0123456789"[n % 10]]
  }

  function Min(a: int, b: int): int {
    if a < b then a else b
  }

  function Filtered<T>(xs: seq<T>, p: T -> bool): (ys: seq<T>)
    ensures |ys| <= |xs|
  {
    if xs == [] then [] else Filtered(xs[..|xs| - 1], p) + (if p(xs[|xs| - 1]) then [xs[|xs| - 1]] else [])
  }

  lemma {:induction false} FilteredAppend<T>(xs: seq<T>, ys: seq<T>, p: T -> bool)
    ensures Filtered(xs + ys, p) == Filtered(xs, p) + Filtered(ys, p)
  {
    if ys == [] {
      assert xs + ys == xs;
    } else {
      var zs := xs + ys;
      assert zs[..|zs| - 1] == xs + ys[..|ys| - 1];
      FilteredAppend(xs, ys[..|ys| - 1], p);
    }
  }

  lemma {:induction false} FilteredAll<T>(xs: seq<T>, p: T -> bool)
    requires forall i :: 0 <= i < |xs| ==> p(xs[i])
    ensures Filtered(xs, p) == xs
  {
    if xs != [] {
      FilteredAll(xs[..|xs| - 1], p);
    }
  }

  lemma {:induction false} FilteredNone<T>(xs: seq<T>, p: T -> bool)
    requires forall i :: 0 <= i < |xs| ==> !p(xs[i])
    ensures Filtered(xs, p) == []
  {
    if xs != [] {
      FilteredNone(xs[..|xs| - 1], p);
    }
  }

  lemma {:induction false} FilteredSatisfies<T>(xs: seq<T>, p: T -> bool)
    ensures forall x :: x in Filtered(xs, p) ==> p(x)
  {
    if xs != [] {
      FilteredSatisfies(xs[..|xs| - 1], p);
    }
  }

  lemma FilteredOne<T>(x: T, p: T -> bool)
    ensures Filtered([x], p) == if p(x) then [x] else []
  {
    assert [x][..0] == [];
  }

  lemma FilteredCons<T>(x: T, xs: seq<T>, p: T -> bool)
    ensures Filtered([x] + xs, p) == (if p(x) then [x] else []) + Filtered(xs, p)
  {
    FilteredOne(x, p);
    FilteredAppend([x], xs, p);
  }

  lemma {:induction false} FilteredFrom<T>(xs: seq<T>, p: T -> bool)
    ensures forall x :: x in Filtered(xs, p) ==> x in xs
  {
    if xs != [] {
      FilteredFrom(xs[..|xs| - 1], p);
    }
  }

  /** The positions of the elements that satisfy `p`, in order. */
  function Indices<T>(xs: seq<T>, p: T -> bool): (ix: seq<nat>)
    ensures |ix| <= |xs|
    ensures forall j :: 0 <= j < |ix| ==> ix[j] < |xs| && p(xs[ix[j]])
  {
    if xs == [] then [] else Indices(xs[..|xs| - 1], p) + (if p(xs[|xs| - 1]) then [|xs| - 1] else [])
  }

  predicate IsAscending(ix: seq<nat>) {
    forall j, k :: 0 <= j < k < |ix| ==> ix[j] < ix[k]
  }

  lemma {:induction false} IndicesAscend<T>(xs: seq<T>, p: T -> bool)
    ensures IsAscending(Indices(xs, p))
  {
    if xs != [] {
      IndicesAscend(xs[..|xs| - 1], p);
    }
  }

  lemma NothingBetween(ix: seq<nat>, i: nat, q: nat)
    requires IsAscending(ix) && i + 1 < |ix| && ix[i] < q < ix[i + 1]
    ensures q !in ix
  {
    forall j | 0 <= j < |ix| ensures ix[j] != q {
      if j < i { assert ix[j] < ix[i]; }
      if i + 1 < j { assert ix[i + 1] < ix[j]; }
    }
  }

  /** Filtering keeps the elements at those positions, and moves none of them to the right. */
  lemma {:induction false} FilteredAtIndices<T>(xs: seq<T>, p: T -> bool)
    ensures |Filtered(xs, p)| == |Indices(xs, p)|
    ensures forall j :: 0 <= j < |Indices(xs, p)| ==>
              Filtered(xs, p)[j] == xs[Indices(xs, p)[j]] && j <= Indices(xs, p)[j]
  {
    if xs != [] {
      FilteredAtIndices(xs[..|xs| - 1], p);
    }
  }

  lemma {:induction false} IndicesAreAll<T>(xs: seq<T>, p: T -> bool, i: nat)
    requires i < |xs| && p(xs[i])
    ensures i in Indices(xs, p)
  {
    if i < |xs| - 1 {
      IndicesAreAll(xs[..|xs| - 1], p, i);
    }
  }

  /** The last `k` elements that satisfy `p`, the latest first. */
  function Window<T>(xs: seq<T>, p: T -> bool, k: nat): (w: seq<T>)
    ensures |w| <= k
  {
    FilteredAtIndices(xs, p);
    var ys := Filtered(xs, p);
    Reversed(if |ys| <= k then ys else ys[|ys| - k..])
  }

  lemma WindowOfNone<T>(p: T -> bool, k: nat)
    ensures Window([], p, k) == []
  {
  }

  lemma WindowIsFrom<T>(xs: seq<T>, p: T -> bool, k: nat)
    ensures forall x :: x in Window(xs, p, k) ==> x in xs
  {
    FilteredAtIndices(xs, p);
    var w := Window(xs, p, k);
    forall j | 0 <= j < |w| ensures w[j] in xs {
      assert w[j] == Filtered(xs, p)[|Filtered(xs, p)| - 1 - j];
    }
  }

  lemma WindowCons<T>(x: T, xs: seq<T>, p: T -> bool, k: nat)
    ensures Window([x] + xs, p, k) == if p(x) && |Window(xs, p, k)| < k then Window(xs, p, k) + [x]
              else Window(xs, p, k)
  {
    FilteredCons(x, xs, p);
    hide Filtered;
    assert p(x) ==> |[x] + Filtered(xs, p)| == 1 + |Filtered(xs, p)|;
  }

  lemma WindowOfSuffix<T>(xs: seq<T>, ys: seq<T>, p: T -> bool, k: nat)
    requires |Window(ys, p, k)| == k
    ensures Window(xs + ys, p, k) == Window(ys, p, k)
  {
    FilteredAppend(xs, ys, p);
  }

  /** Between two neighbouring positions nothing satisfies `p`. */
  lemma IndicesGap<T>(xs: seq<T>, p: T -> bool, i: nat, q: nat)
    requires i + 1 < |Indices(xs, p)| && Indices(xs, p)[i] < q < Indices(xs, p)[i + 1]
    ensures !p(xs[q])
  {
    IndicesAscend(xs, p);
    NothingBetween(Indices(xs, p), i, q);
    if p(xs[q]) {
      IndicesAreAll(xs, p, q);
    }
  }

  /** An element that satisfies `p` is kept, no further right than it was. */
  lemma FilteredKeeps<T>(xs: seq<T>, p: T -> bool, i: nat) returns (j: nat)
    requires i < |xs| && p(xs[i])
    ensures j <= i && j < |Filtered(xs, p)| && Filtered(xs, p)[j] == xs[i]
  {
    IndicesAreAll(xs, p, i);
    FilteredAtIndices(xs, p);
    j :| 0 <= j < |Indices(xs, p)| && Indices(xs, p)[j] == i;
  }

  lemma {:induction false} KeptAndDropped<T>(xs: seq<T>, p: T -> bool, q: T -> bool)
    requires forall x :: q(x) <==> !p(x)
    ensures |Filtered(xs, p)| + |Filtered(xs, q)| == |xs|
  {
    if xs != [] {
      KeptAndDropped(xs[..|xs| - 1], p, q);
    }
  }

  /** Filtering moves an element to the left by as many places as elements before it were dropped. */
  lemma {:induction false} IndexCountsDropped<T>(xs: seq<T>, p: T -> bool, q: T -> bool, j: nat)
    requires (forall x :: q(x) <==> !p(x)) && j < |Indices(xs, p)|
    ensures Indices(xs, p)[j] == j + |Filtered(xs[..Indices(xs, p)[j]], q)|
  {
    var before := xs[..|xs| - 1];
    if j < |Indices(before, p)| {
      IndexCountsDropped(before, p, q, j);
      assert before[..Indices(before, p)[j]] == xs[..Indices(before, p)[j]];
    } else {
      FilteredAtIndices(before, p);
      KeptAndDropped(before, p, q);
    }
  }

  /** The first element that satisfies `p` is the first of the filtered ones. */
  lemma {:induction false} FirstOfFiltered<T>(xs: seq<T>, p: T -> bool, k: nat)
    requires k < |xs| && p(xs[k]) && forall i :: 0 <= i < k ==> !p(xs[i])
    ensures Filtered(xs, p) != [] && Filtered(xs, p)[0] == xs[k]
  {
    var before := xs[..|xs| - 1];
    if k < |before| {
      FirstOfFiltered(before, p, k);
    } else {
      FilteredNone(before, p);
    }
  }
}
