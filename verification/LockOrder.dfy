/**
 String comparison as JavaScript's `<` does it, character by character, a proper prefix first. Product ids are decimal,
 and for such characters the source's code units and these are the same.
 */
module Collation {

  predicate Less(a: string, b: string)
  {
    if b == "" then false
    else if a == "" then true
    else if a[0] != b[0] then a[0] < b[0]
    else Less(a[1..], b[1..])
  }

  lemma {:induction false} Irreflexive(a: string)
    ensures !Less(a, a)
  {
    if a != "" {
      Irreflexive(a[1..]);
    }
  }

  lemma {:induction false} Transitive(a: string, b: string, c: string)
    requires Less(a, b) && Less(b, c)
    ensures Less(a, c)
  {
    if a != "" && a[0] == b[0] == c[0] {
      Transitive(a[1..], b[1..], c[1..]);
    }
  }

  lemma {:induction false} Total(a: string, b: string)
    ensures a == b || Less(a, b) || Less(b, a)
  {
    if a != "" && b != "" && a[0] == b[0] {
      Total(a[1..], b[1..]);
      assert a == [a[0]] + a[1..] && b == [b[0]] + b[1..];
    }
  }
}

/** The row-lock order of a checkout: by product id, ties by request position. */
module LockOrder {
  import opened Collation

  datatype Item = Item(productId: string, quantity: int)

  datatype Indexed = Indexed(item: Item, index: nat)

  /** The comparator returns a negative number. */
  predicate Precedes(left: Indexed, right: Indexed)
  {
    || Less(left.item.productId, right.item.productId)
    || (left.item.productId == right.item.productId && left.index < right.index)
  }

  function WithIndexes(items: seq<Item>): seq<Indexed>
  {
    seq(|items|, i requires 0 <= i < |items| => Indexed(items[i], i))
  }

  function Insert(x: Indexed, sorted: seq<Indexed>): seq<Indexed>
  {
    if sorted == [] then [x]
    else if Precedes(x, sorted[0]) then [x] + sorted
    else [sorted[0]] + Insert(x, sorted[1..])
  }

  function Sort(xs: seq<Indexed>): seq<Indexed>
  {
    if xs == [] then [] else Insert(xs[|xs| - 1], Sort(xs[..|xs| - 1]))
  }

  function ItemsInLockOrder(items: seq<Item>): seq<Indexed>
  {
    Sort(WithIndexes(items))
  }

  ghost predicate Ordered(xs: seq<Indexed>)
  {
    forall i, j :: 0 <= i < j < |xs| ==> Precedes(xs[i], xs[j])
  }

  ghost predicate DistinctIndexes(xs: seq<Indexed>)
  {
    forall i, j :: 0 <= i < j < |xs| ==> xs[i].index != xs[j].index
  }

  lemma PrecedesTransitive(a: Indexed, b: Indexed, c: Indexed)
    requires Precedes(a, b) && Precedes(b, c)
    ensures Precedes(a, c)
  {
    if Less(a.item.productId, b.item.productId) && Less(b.item.productId, c.item.productId) {
      Transitive(a.item.productId, b.item.productId, c.item.productId);
    }
  }

  lemma PrecedesAsymmetric(a: Indexed, b: Indexed)
    requires Precedes(a, b)
    ensures !Precedes(b, a)
  {
    if Precedes(b, a) {
      PrecedesTransitive(a, b, a);
      Irreflexive(a.item.productId);
    }
  }

  lemma {:induction false} InsertPermutes(x: Indexed, sorted: seq<Indexed>)
    ensures multiset(Insert(x, sorted)) == multiset([x]) + multiset(sorted)
  {
    if sorted != [] && !Precedes(x, sorted[0]) {
      InsertPermutes(x, sorted[1..]);
      assert sorted == [sorted[0]] + sorted[1..];
    }
  }

  lemma {:induction false} InsertOrdered(x: Indexed, sorted: seq<Indexed>)
    requires Ordered(sorted)
    requires forall y :: y in sorted ==> y.index != x.index
    ensures Ordered(Insert(x, sorted))
  {
    if sorted == [] {
    } else if Precedes(x, sorted[0]) {
      forall j | 0 < j < |sorted| ensures Precedes(x, sorted[j]) {
        PrecedesTransitive(x, sorted[0], sorted[j]);
      }
    } else {
      Total(x.item.productId, sorted[0].item.productId);
      assert sorted[0] in sorted;
      assert Precedes(sorted[0], x);
      var rest := Insert(x, sorted[1..]);
      InsertOrdered(x, sorted[1..]);
      InsertPermutes(x, sorted[1..]);
      forall j | 0 <= j < |rest| ensures Precedes(sorted[0], rest[j]) {
        assert rest[j] in multiset(rest);
        if rest[j] != x {
          assert rest[j] in sorted[1..];
        }
      }
    }
  }

  lemma {:induction false} SortPermutes(xs: seq<Indexed>)
    ensures multiset(Sort(xs)) == multiset(xs)
  {
    if xs != [] {
      var init := xs[..|xs| - 1];
      SortPermutes(init);
      InsertPermutes(xs[|xs| - 1], Sort(init));
      assert xs == init + [xs[|xs| - 1]];
    }
  }

  lemma {:induction false} SortOrdered(xs: seq<Indexed>)
    requires DistinctIndexes(xs)
    ensures Ordered(Sort(xs))
  {
    if xs != [] {
      var init, x := xs[..|xs| - 1], xs[|xs| - 1];
      SortOrdered(init);
      SortPermutes(init);
      forall y | y in Sort(init) ensures y.index != x.index {
        assert y in multiset(Sort(init));
        assert y in init;
      }
      InsertOrdered(x, Sort(init));
    }
  }

  /** Sorted by (product id, request position), and a permutation of the indexed request. */
  lemma LockOrderSorts(items: seq<Item>)
    ensures Ordered(ItemsInLockOrder(items))
    ensures multiset(ItemsInLockOrder(items)) == multiset(WithIndexes(items))
    ensures |ItemsInLockOrder(items)| == |items|
  {
    SortOrdered(WithIndexes(items));
    SortPermutes(WithIndexes(items));
    assert |multiset(ItemsInLockOrder(items))| == |multiset(WithIndexes(items))|;
  }

  /** Every entry carries the request position its item came from, and every position is carried once. */
  lemma LockOrderCarriesIndexes(items: seq<Item>)
    ensures forall e :: e in ItemsInLockOrder(items) ==> e.index < |items| && e.item == items[e.index]
    ensures forall i :: 0 <= i < |items| ==> Indexed(items[i], i) in ItemsInLockOrder(items)
    ensures DistinctIndexes(ItemsInLockOrder(items))
  {
    var locked, source := ItemsInLockOrder(items), WithIndexes(items);
    LockOrderSorts(items);
    forall e | e in locked ensures e.index < |items| && e.item == items[e.index] {
      assert e in multiset(locked);
      assert e in source;
    }
    forall i | 0 <= i < |items| ensures Indexed(items[i], i) in locked {
      assert source[i] in multiset(source);
    }
    forall i, j | 0 <= i < j < |locked| ensures locked[i].index != locked[j].index {
      assert locked[i] in locked && locked[j] in locked;
      Irreflexive(locked[i].item.productId);
    }
  }

  lemma SameFirst(a: seq<Indexed>, b: seq<Indexed>)
    requires Ordered(a) && Ordered(b) && multiset(a) == multiset(b) && a != [] && b != []
    ensures a[0] == b[0]
  {
    assert a[0] in multiset(b) && b[0] in multiset(a);
    if a[0] != b[0] {
      var i :| 0 < i < |a| && a[i] == b[0];
      var j :| 0 < j < |b| && b[j] == a[0];
      PrecedesAsymmetric(a[0], b[0]);
      assert false;
    }
  }

  /** Two ordered sequences of the same entries are the same sequence. */
  lemma {:induction false} OrderedUnique(a: seq<Indexed>, b: seq<Indexed>)
    requires Ordered(a) && Ordered(b) && multiset(a) == multiset(b)
    ensures a == b
  {
    assert |a| == |multiset(a)| == |multiset(b)| == |b|;
    if a != [] {
      SameFirst(a, b);
      assert a == [a[0]] + a[1..] && b == [b[0]] + b[1..];
      assert multiset(a[1..]) == multiset(a) - multiset([a[0]]);
      assert multiset(b[1..]) == multiset(b) - multiset([b[0]]);
      OrderedUnique(a[1..], b[1..]);
    }
  }

  /** So the lock order does not depend on the sorting algorithm: any correct sort gives this sequence. */
  lemma LockOrderUnique(items: seq<Item>, other: seq<Indexed>)
    requires Ordered(other) && multiset(other) == multiset(WithIndexes(items))
    ensures other == ItemsInLockOrder(items)
  {
    LockOrderSorts(items);
    OrderedUnique(other, ItemsInLockOrder(items));
  }
}
