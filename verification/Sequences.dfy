/** Sums and stable sorting over sequences, shared by the other modules. A sum over a sequence is a sum of a
    function of its elements, from the left; it is split, appended to, and compared with the sum over a
    permutation. Sorting inserts each element behind those that are not greater, so equal elements keep their
    order, which is what the sorts of the code do. */
module Sequences {

  /** The sum of f over the elements of xs. */
  function SumOf<T>(xs: seq<T>, f: T -> int): int {
    if xs == [] then 0 else f(xs[0]) + SumOf(xs[1..], f)
  }

  lemma {:induction false} SumOfAppend<T>(xs: seq<T>, ys: seq<T>, f: T -> int)
    ensures SumOf(xs + ys, f) == SumOf(xs, f) + SumOf(ys, f)
  {
    if xs == [] {
      assert xs + ys == ys;
    } else {
      assert (xs + ys)[1..] == xs[1..] + ys;
      SumOfAppend(xs[1..], ys, f);
    }
  }

  lemma {:induction false} SumOfSnoc<T>(xs: seq<T>, x: T, f: T -> int)
    ensures SumOf(xs + [x], f) == SumOf(xs, f) + f(x)
  {
    SumOfAppend(xs, [x], f);
    assert [x][1..] == [];
  }

  lemma {:induction false} SumOfSplit<T>(xs: seq<T>, i: nat, f: T -> int)
    requires i < |xs|
    ensures SumOf(xs, f) == SumOf(xs[..i], f) + f(xs[i]) + SumOf(xs[i + 1..], f)
  {
    assert xs == xs[..i] + ([xs[i]] + xs[i + 1..]);
    SumOfAppend(xs[..i], [xs[i]] + xs[i + 1..], f);
    assert ([xs[i]] + xs[i + 1..])[1..] == xs[i + 1..];
  }

  lemma {:induction false} SumOfSame<T>(xs: seq<T>, f: T -> int, g: T -> int)
    requires forall x :: x in xs ==> f(x) == g(x)
    ensures SumOf(xs, f) == SumOf(xs, g)
  {
    if xs != [] {
      SumOfSame(xs[1..], f, g);
    }
  }

  lemma {:induction false} SumOfNonNegative<T>(xs: seq<T>, f: T -> int)
    requires forall x :: x in xs ==> f(x) >= 0
    ensures SumOf(xs, f) >= 0
    ensures SumOf(xs, f) == 0 <==> forall x :: x in xs ==> f(x) == 0
  {
    if xs != [] {
      SumOfNonNegative(xs[1..], f);
      assert forall x :: x in xs <==> x == xs[0] || x in xs[1..];
    }
  }

  /** Taking the same element out of two permutations leaves permutations. */
  lemma {:induction false} PermutationRest<T>(xs: seq<T>, ys: seq<T>, i: nat)
    requires xs != [] && i < |ys| && ys[i] == xs[0] && multiset(xs) == multiset(ys)
    ensures multiset(xs[1..]) == multiset(ys[..i] + ys[i + 1..])
  {
    assert xs == [xs[0]] + xs[1..];
    assert ys == ys[..i] + [ys[i]] + ys[i + 1..];
    assert multiset(xs) == multiset{xs[0]} + multiset(xs[1..]);
    assert multiset(ys) == multiset(ys[..i]) + multiset{ys[i]} + multiset(ys[i + 1..]);
    assert multiset(xs[1..]) == multiset(xs) - multiset{xs[0]};
    assert multiset(ys[..i] + ys[i + 1..]) == multiset(ys) - multiset{ys[i]};
  }

  /** A sum does not depend on the order of its terms. */
  lemma {:induction false} SumOfPermutation<T>(xs: seq<T>, ys: seq<T>, f: T -> int)
    requires multiset(xs) == multiset(ys)
    ensures SumOf(xs, f) == SumOf(ys, f)
  {
    if xs == [] {
      assert |multiset(ys)| == |ys|;
    } else {
      assert xs[0] in multiset(ys);
      var i: nat :| i < |ys| && ys[i] == xs[0];
      PermutationRest(xs, ys, i);
      SumOfPermutation(xs[1..], ys[..i] + ys[i + 1..], f);
      SumOfSplit(ys, i, f);
      SumOfAppend(ys[..i], ys[i + 1..], f);
    }
  }

  /** Concatenation is associative; named so that long ones can be regrouped by hand. */
  lemma {:induction false} Regroup<T>(a: seq<T>, b: seq<T>, c: seq<T>)
    ensures (a + b) + c == a + (b + c)
  {
  }

  /** Python's `sorted` with a key: a stable insertion sort. */
  function SortBy<T>(xs: seq<T>, key: T -> int): (r: seq<T>)
    ensures |r| == |xs|
  {
    if xs == [] then [] else InsertBy(xs[0], SortBy(xs[1..], key), key)
  }

  function InsertBy<T>(x: T, ys: seq<T>, key: T -> int): (r: seq<T>)
    ensures |r| == |ys| + 1
  {
    if ys == [] || key(x) <= key(ys[0]) then [x] + ys else [ys[0]] + InsertBy(x, ys[1..], key)
  }

  ghost predicate SortedBy<T>(xs: seq<T>, key: T -> int) {
    forall i, j :: 0 <= i < j < |xs| ==> key(xs[i]) <= key(xs[j])
  }

  lemma {:induction false} SortedCons<T>(x: T, xs: seq<T>, key: T -> int)
    requires SortedBy(xs, key)
    requires forall j :: 0 <= j < |xs| ==> key(x) <= key(xs[j])
    ensures SortedBy([x] + xs, key)
  {
  }

  lemma {:induction false} InsertBySorted<T>(x: T, ys: seq<T>, key: T -> int)
    requires SortedBy(ys, key)
    ensures multiset(InsertBy(x, ys, key)) == multiset(ys) + multiset{x}
    ensures SortedBy(InsertBy(x, ys, key), key)
  {
    if ys == [] || key(x) <= key(ys[0]) {
    } else {
      var tail := InsertBy(x, ys[1..], key);
      InsertBySorted(x, ys[1..], key);
      assert ys == [ys[0]] + ys[1..];
      forall j | 0 <= j < |tail| ensures key(ys[0]) <= key(tail[j]) {
        assert tail[j] in multiset(tail);
        if tail[j] != x {
          assert tail[j] in multiset(ys[1..]);
          var k :| 0 <= k < |ys[1..]| && ys[1..][k] == tail[j];
          assert key(ys[0]) <= key(ys[k + 1]);
        }
      }
      SortedCons(ys[0], tail, key);
    }
  }

  lemma {:induction false} SameMembers<T>(xs: seq<T>, ys: seq<T>)
    requires multiset(xs) == multiset(ys)
    ensures forall x :: x in xs <==> x in ys
  {
    forall x ensures x in xs <==> x in ys {
      assert x in multiset(xs) <==> x in multiset(ys);
    }
  }

  lemma {:induction false} EmptySorted<T>(key: T -> int)
    ensures SortedBy([], key)
  {
  }

  /** Sorting keeps the elements and puts their keys in ascending order. */
  lemma {:induction false} SortBySorted<T>(xs: seq<T>, key: T -> int)
    ensures multiset(SortBy(xs, key)) == multiset(xs)
    ensures SortedBy(SortBy(xs, key), key)
    ensures forall x :: x in SortBy(xs, key) <==> x in xs
  {
    hide InsertBy, SortedBy;
    if xs == [] {
      EmptySorted(key);
    } else {
      SortBySorted(xs[1..], key);
      InsertBySorted(xs[0], SortBy(xs[1..], key), key);
      assert xs == [xs[0]] + xs[1..];
    }
    SameMembers(SortBy(xs, key), xs);
  }
}
