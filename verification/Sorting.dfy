/** Sorting by an arbitrary total order, and the uniqueness of the result. */
module Sorting {
  ghost predicate TotalOrder<T(!new)>(le: (T, T) -> bool) {
    && (forall a, b :: le(a, b) || le(b, a))
    && (forall a, b :: le(a, b) && le(b, a) ==> a == b)
    && (forall a, b, c :: le(a, b) && le(b, c) ==> le(a, c))
  }

  ghost predicate Sorted<T>(le: (T, T) -> bool, items: seq<T>) {
    forall i, j :: 0 <= i < j < |items| ==> le(items[i], items[j])
  }

  /** The place at which inserting keeps a sorted list sorted. */
  function Position<T(!new)>(le: (T, T) -> bool, items: seq<T>, item: T): (k: nat)
    requires TotalOrder(le) && Sorted(le, items)
    ensures k <= |items|
    ensures forall i :: 0 <= i < k ==> le(items[i], item)
    ensures forall i :: k <= i < |items| ==> le(item, items[i])
  {
    var n := |items|;
    if n == 0 || le(items[n - 1], item) then n else Position(le, items[..n - 1], item)
  }

  lemma InsertSorted<T(!new)>(le: (T, T) -> bool, items: seq<T>, k: nat, item: T)
    requires TotalOrder(le) && Sorted(le, items) && k <= |items|
    requires forall i :: 0 <= i < k ==> le(items[i], item)
    requires forall i :: k <= i < |items| ==> le(item, items[i])
    ensures Sorted(le, items[..k] + [item] + items[k..])
    ensures multiset(items[..k] + [item] + items[k..]) == multiset(items) + multiset{item}
  {
    assert items == items[..k] + items[k..];
  }

  /** Stands for the library sort: a sorted arrangement of the same items. */
  function SortBy<T(!new)>(le: (T, T) -> bool, items: seq<T>): (r: seq<T>)
    requires TotalOrder(le)
    ensures Sorted(le, r) && multiset(r) == multiset(items)
  {
    if items == [] then []
    else
      assert items == [items[0]] + items[1..];
      var rest := SortBy(le, items[1..]);
      var k := Position(le, rest, items[0]);
      InsertSorted(le, rest, k, items[0]);
      rest[..k] + [items[0]] + rest[k..]
  }

  lemma SortedHeads<T(!new)>(le: (T, T) -> bool, a: seq<T>, b: seq<T>)
    requires TotalOrder(le) && Sorted(le, a) && Sorted(le, b) && multiset(a) == multiset(b) && a != [] && b != []
    ensures a[0] == b[0]
  {
    assert a[0] in multiset(b) && b[0] in multiset(a);
    var i :| 0 <= i < |b| && b[i] == a[0];
    var j :| 0 <= j < |a| && a[j] == b[0];
  }

  lemma SameLength<T>(a: seq<T>, b: seq<T>)
    requires multiset(a) == multiset(b)
    ensures |a| == |b|
  {
    assert |multiset(a)| == |a| && |multiset(b)| == |b|;
  }

  lemma TailsAgree<T>(a: seq<T>, b: seq<T>)
    requires multiset(a) == multiset(b) && a != [] && b != [] && a[0] == b[0]
    ensures multiset(a[1..]) == multiset(b[1..])
  {
    assert a == [a[0]] + a[1..] && b == [b[0]] + b[1..];
    assert multiset(a[1..]) == multiset(a) - multiset{a[0]};
    assert multiset(b[1..]) == multiset(b) - multiset{b[0]};
  }

  lemma Rejoined<T>(a: seq<T>, b: seq<T>)
    requires a != [] && b != [] && a[0] == b[0] && a[1..] == b[1..]
    ensures a == b
  {
    assert a == [a[0]] + a[1..] && b == [b[0]] + b[1..];
  }

  lemma SortedTail<T(!new)>(le: (T, T) -> bool, a: seq<T>)
    requires Sorted(le, a) && a != []
    ensures Sorted(le, a[1..])
  {
  }

  /** Any two sorted arrangements of the same items are equal. */
  lemma {:induction false} SortedUnique<T(!new)>(le: (T, T) -> bool, a: seq<T>, b: seq<T>)
    requires TotalOrder(le) && Sorted(le, a) && Sorted(le, b) && multiset(a) == multiset(b)
    ensures a == b
  {
    SameLength(a, b);
    if a != [] {
      SortedHeads(le, a, b);
      TailsAgree(a, b);
      SortedTail(le, a);
      SortedTail(le, b);
      SortedUnique(le, a[1..], b[1..]);
      Rejoined(a, b);
    }
  }

  /** Every bag is the bag of some list. */
  lemma {:induction false} Listing<T>(bag: multiset<T>) returns (items: seq<T>)
    ensures multiset(items) == bag
  {
    if bag == multiset{} {
      items := [];
    } else {
      var item :| item in bag;
      var rest := Listing(bag - multiset{item});
      items := [item] + rest;
    }
  }
}
