/** Facts about sequences used for "insertion order without duplicates". */
module Seqs {

  /** No element occurs twice. */
  predicate NoDup<T(==)>(s: seq<T>) {
    forall i, j :: 0 <= i < j < |s| ==> s[i] != s[j]
  }

  /** Position of the first occurrence of `x` in `s`. */
  function FirstIndex<T(==)>(s: seq<T>, x: T): (k: nat)
    requires x in s
    ensures k < |s| && s[k] == x
    ensures forall i :: 0 <= i < k ==> s[i] != x
  {
    if s[0] == x then 0 else 1 + FirstIndex(s[1..], x)
  }

  /** `order` lists every element of `source` exactly once, ordered by where
      each element first appears in `source` (the order of a Python dict or of a
      graph library's node list filled while scanning `source`). */
  predicate FirstSeenOrder<T(==)>(order: seq<T>, source: seq<T>) {
    && NoDup(order)
    && (forall i :: 0 <= i < |order| ==> order[i] in source)
    && (forall i :: 0 <= i < |source| ==> source[i] in order)
    && (forall i, j :: 0 <= i < j < |order| ==> FirstIndex(source, order[i]) < FirstIndex(source, order[j]))
  }

  /** A first-seen ordering holds the same elements as its source. */
  lemma FirstSeenSameElements<T>(order: seq<T>, source: seq<T>)
    requires FirstSeenOrder(order, source)
    ensures forall x :: x in order <==> x in source
  {
    forall x | x in order ensures x in source {
      var i :| 0 <= i < |order| && order[i] == x;
    }
    forall x | x in source ensures x in order {
      var i :| 0 <= i < |source| && source[i] == x;
    }
  }

  /** Appending to a sequence does not move the first occurrence of an element
      already in it. */
  lemma {:induction false} FirstIndexPrefix<T>(s: seq<T>, t: seq<T>, x: T)
    requires x in s
    ensures FirstIndex(s + t, x) == FirstIndex(s, x)
  {
    if s[0] != x {
      assert (s + t)[1..] == s[1..] + t;
      FirstIndexPrefix(s[1..], t, x);
    }
  }

  /** Scanning one more element `x` keeps a first-seen ordering: the order is
      unchanged when `x` was already seen, and `x` goes last otherwise. */
  lemma FirstSeenExtend<T>(order: seq<T>, source: seq<T>, x: T)
    requires FirstSeenOrder(order, source)
    ensures FirstSeenOrder(if x in order then order else order + [x], source + [x])
  {
    FirstIndexesKept(source, x);
    if x in order {
      FirstSeenSeen(order, source, x);
    } else {
      FirstSeenNew(order, source, x);
    }
  }

  /** Elements already in `source` keep their first position after `x` is appended. */
  lemma FirstIndexesKept<T>(source: seq<T>, x: T)
    ensures forall y :: y in source ==> FirstIndex(source + [x], y) == FirstIndex(source, y)
  {
    forall y | y in source
      ensures FirstIndex(source + [x], y) == FirstIndex(source, y)
    {
      FirstIndexPrefix(source, [x], y);
    }
  }

  lemma FirstSeenSeen<T>(order: seq<T>, source: seq<T>, x: T)
    requires FirstSeenOrder(order, source) && x in order
    requires forall y :: y in source ==> FirstIndex(source + [x], y) == FirstIndex(source, y)
    ensures FirstSeenOrder(order, source + [x])
  {
    var source' := source + [x];
    forall i | 0 <= i < |source'| ensures source'[i] in order {
      if i < |source| { assert source'[i] == source[i]; }
    }
    forall i, j | 0 <= i < j < |order|
      ensures FirstIndex(source', order[i]) < FirstIndex(source', order[j])
    {
      assert order[i] in source && order[j] in source;
    }
  }

  lemma FirstSeenNew<T>(order: seq<T>, source: seq<T>, x: T)
    requires FirstSeenOrder(order, source) && x !in order
    requires forall y :: y in source ==> FirstIndex(source + [x], y) == FirstIndex(source, y)
    ensures FirstSeenOrder(order + [x], source + [x])
  {
    var source' := source + [x];
    var order' := order + [x];
    FirstSeenSameElements(order, source);
    assert FirstIndex(source', x) == |source|;
    forall i, j | 0 <= i < j < |order'|
      ensures FirstIndex(source', order'[i]) < FirstIndex(source', order'[j])
    {
      assert order'[i] in source;
      if j < |order| {
        assert order'[j] in source;
      }
    }
  }

  /** `k` copies of `x`. */
  function Repeat<T>(x: T, k: nat): (s: seq<T>)
    ensures |s| == k && forall i :: 0 <= i < k ==> s[i] == x
  {
    if k == 0 then [] else Repeat(x, k - 1) + [x]
  }
}
