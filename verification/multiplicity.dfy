/** Occurrence counts over sequences: the reference against which the grouping
    accumulators of the transformer are checked. */
module Multiplicity {

  /** Number of occurrences of x in xs. */
  function Count<T(==)>(xs: seq<T>, x: T): nat
  {
    if xs == [] then 0 else (if xs[0] == x then 1 else 0) + Count(xs[1..], x)
  }

  predicate Distinct<T(==)>(s: seq<T>) {
    forall i, j :: 0 <= i < j < |s| ==> s[i] != s[j]
  }

  /** Sum, over the listed keys, of their occurrence counts in xs. */
  function SumCounts<T(==)>(keys: seq<T>, xs: seq<T>): nat
  {
    if keys == [] then 0 else Count(xs, keys[0]) + SumCounts(keys[1..], xs)
  }

  lemma {:induction false} CountAppend<T>(a: seq<T>, b: seq<T>, x: T)
    ensures Count(a + b, x) == Count(a, x) + Count(b, x)
  {
    if a == [] {
      assert a + b == b;
    } else {
      assert (a + b)[0] == a[0];
      assert (a + b)[1..] == a[1..] + b;
      CountAppend(a[1..], b, x);
    }
  }

  lemma {:induction false} CountPositive<T>(xs: seq<T>, x: T)
    ensures Count(xs, x) > 0 <==> x in xs
  {
    if xs != [] {
      CountPositive(xs[1..], x);
      assert x in xs <==> xs[0] == x || x in xs[1..];
    }
  }

  lemma {:induction false} CountAll<T>(xs: seq<T>, x: T)
    requires forall i :: 0 <= i < |xs| ==> xs[i] == x
    ensures Count(xs, x) == |xs|
  {
    if xs != [] {
      CountAll(xs[1..], x);
    }
  }

  /** Adding one element adds one to the sum when the element is listed once among the keys. */
  lemma {:induction false} SumCountsCons<T>(keys: seq<T>, x: T, xs: seq<T>)
    requires Distinct(keys)
    ensures SumCounts(keys, [x] + xs) == SumCounts(keys, xs) + (if x in keys then 1 else 0)
  {
    if keys != [] {
      assert ([x] + xs)[1..] == xs;
      assert Distinct(keys[1..]) by {
        forall i, j | 0 <= i < j < |keys[1..]| ensures keys[1..][i] != keys[1..][j] {
          assert keys[1..][i] == keys[i + 1] && keys[1..][j] == keys[j + 1];
        }
      }
      SumCountsCons(keys[1..], x, xs);
      if keys[0] == x {
        assert x !in keys[1..] by {
          forall j | 0 <= j < |keys[1..]| ensures keys[1..][j] != x {
            assert keys[1..][j] == keys[j + 1];
          }
        }
      }
      assert x in keys <==> keys[0] == x || x in keys[1..];
    }
  }

  /** Counting every element under distinct keys that cover them all accounts for each exactly once. */
  lemma {:induction false} SumCountsCovers<T>(keys: seq<T>, xs: seq<T>)
    requires Distinct(keys)
    requires forall i :: 0 <= i < |xs| ==> xs[i] in keys
    ensures SumCounts(keys, xs) == |xs|
  {
    if xs == [] {
      SumCountsEmpty(keys);
    } else {
      assert xs == [xs[0]] + xs[1..];
      SumCountsCons(keys, xs[0], xs[1..]);
      SumCountsCovers(keys, xs[1..]);
    }
  }

  lemma {:induction false} SumCountsEmpty<T>(keys: seq<T>)
    ensures SumCounts(keys, []) == 0
  {
    if keys != [] {
      SumCountsEmpty(keys[1..]);
    }
  }

  /** In a duplicate-free list every value occurs at most once. */
  lemma {:induction false} DistinctCountAtMostOne<T>(keys: seq<T>, x: T)
    requires Distinct(keys)
    ensures Count(keys, x) <= 1
  {
    if keys != [] {
      var rest := keys[1..];
      assert Distinct(rest) by {
        forall i, j | 0 <= i < j < |rest| ensures rest[i] != rest[j] {
          assert rest[i] == keys[i + 1] && rest[j] == keys[j + 1];
        }
      }
      DistinctCountAtMostOne(rest, x);
      if keys[0] == x {
        forall j | 0 <= j < |rest| ensures rest[j] != x {
          assert rest[j] == keys[j + 1];
        }
        CountPositive(rest, x);
      }
    }
  }

  /** A duplicate-free list whose only element is k is the list [k]. */
  lemma DistinctOnly<T>(keys: seq<T>, k: T)
    requires Distinct(keys)
    requires forall x :: x in keys <==> x == k
    ensures keys == [k]
  {
    assert k in keys;
    forall i | 0 <= i < |keys| ensures keys[i] == k {
      assert keys[i] in keys;
    }
    CountAll(keys, k);
    DistinctCountAtMostOne(keys, k);
  }

  /** Position of the first occurrence of x in xs. */
  function FirstIndex<T(==)>(xs: seq<T>, x: T): (i: nat)
    requires x in xs
    ensures i < |xs| && xs[i] == x && x !in xs[..i]
  {
    if xs[0] == x then 0
    else
      var i := 1 + FirstIndex(xs[1..], x);
      assert xs[..i] == [xs[0]] + xs[1..][..i - 1];
      i
  }

  /** The first occurrence is the only position holding x with no x before it. */
  lemma FirstIndexUnique<T>(xs: seq<T>, x: T, i: nat)
    requires i < |xs| && xs[i] == x && x !in xs[..i]
    ensures FirstIndex(xs, x) == i
  {
    var j := FirstIndex(xs, x);
    assert forall k :: 0 <= k < i ==> xs[k] != x by {
      forall k | 0 <= k < i ensures xs[k] != x {
        assert xs[..i][k] == xs[k];
      }
    }
    assert forall k :: 0 <= k < j ==> xs[k] != x by {
      forall k | 0 <= k < j ensures xs[k] != x {
        assert xs[..j][k] == xs[k];
      }
    }
  }

  /** Appending never moves the first occurrence of a value already present. */
  lemma FirstIndexAppend<T>(xs: seq<T>, ys: seq<T>, x: T)
    requires x in xs
    ensures x in xs + ys
    ensures FirstIndex(xs + ys, x) == FirstIndex(xs, x)
  {
    var i := FirstIndex(xs, x);
    assert (xs + ys)[..i] == xs[..i];
    FirstIndexUnique(xs + ys, x, i);
  }

  /** Every value of order occurs in hs, and a value occurring earlier in hs is listed earlier. */
  ghost predicate ListedByFirstIndex<T>(order: seq<T>, hs: seq<T>) {
    && (forall i :: 0 <= i < |order| ==> order[i] in hs)
    && (forall i, j :: 0 <= i < j < |order| ==> FirstIndex(hs, order[i]) < FirstIndex(hs, order[j]))
  }

  /** Further occurrences never disturb an order by first occurrence. */
  lemma ListedByFirstIndexAppend<T>(order: seq<T>, hs: seq<T>, h: T)
    requires ListedByFirstIndex(order, hs)
    ensures ListedByFirstIndex(order, hs + [h])
  {
    forall k | 0 <= k < |order|
      ensures order[k] in hs + [h] && FirstIndex(hs + [h], order[k]) == FirstIndex(hs, order[k])
    {
      FirstIndexAppend(hs, [h], order[k]);
    }
  }

  /** A value occurring for the first time may be listed last. */
  lemma ListedByFirstIndexExtend<T>(order: seq<T>, hs: seq<T>, h: T)
    requires ListedByFirstIndex(order, hs) && h !in hs
    ensures ListedByFirstIndex(order + [h], hs + [h])
  {
    var hs' := hs + [h];
    var order' := order + [h];
    ListedByFirstIndexAppend(order, hs, h);
    assert hs'[..|hs|] == hs;
    FirstIndexUnique(hs', h, |hs|);
    forall i | 0 <= i < |order'| ensures order'[i] in hs' {
      if i < |order| {
        assert order'[i] == order[i];
      }
    }
    forall i, j | 0 <= i < j < |order'|
      ensures FirstIndex(hs', order'[i]) < FirstIndex(hs', order'[j])
    {
      assert order'[i] == order[i];
      if j < |order| {
        assert order'[j] == order[j];
      }
    }
  }
}
