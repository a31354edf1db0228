/** Go's sort over distinct elements, and why sorting makes map iteration order invisible. */
module Ordering {
  import opened Text

  ghost predicate StrictOrder<T(!new)>(less: (T, T) -> bool) {
    && (forall a :: !less(a, a))
    && (forall a, b, c :: less(a, b) && less(b, c) ==> less(a, c))
  }

  ghost predicate TotalOn<T(!new)>(less: (T, T) -> bool, s: set<T>) {
    forall a, b :: a in s && b in s && a != b ==> less(a, b) || less(b, a)
  }

  ghost predicate Ordered<T(!new)>(less: (T, T) -> bool, xs: seq<T>) {
    forall i, j :: 0 <= i < j < |xs| ==> less(xs[i], xs[j])
  }

  ghost predicate Distinct<T(!new)>(xs: seq<T>) {
    forall i, j :: 0 <= i < j < |xs| ==> xs[i] != xs[j]
  }

  function Elements<T>(xs: seq<T>): set<T> {
    set x | x in xs
  }

  function Insert<T>(less: (T, T) -> bool, x: T, xs: seq<T>): seq<T> {
    if |xs| == 0 || less(x, xs[0]) then [x] + xs else [xs[0]] + Insert(less, x, xs[1..])
  }

  /** sort.Slice, as an insertion sort. */
  function Sort<T>(less: (T, T) -> bool, xs: seq<T>): seq<T> {
    if |xs| == 0 then [] else Insert(less, xs[|xs| - 1], Sort(less, xs[..|xs| - 1]))
  }

  lemma {:induction false} InsertElements<T>(less: (T, T) -> bool, x: T, xs: seq<T>)
    ensures Elements(Insert(less, x, xs)) == Elements(xs) + {x}
    decreases |xs|
  {
    if |xs| > 0 && !less(x, xs[0]) {
      InsertElements(less, x, xs[1..]);
      assert xs == [xs[0]] + xs[1..];
      var rest := Insert(less, x, xs[1..]);
      assert Elements([xs[0]] + rest) == {xs[0]} + Elements(rest);
      assert Elements(xs) == {xs[0]} + Elements(xs[1..]);
    } else {
      assert Elements([x] + xs) == {x} + Elements(xs);
    }
  }

  lemma {:induction false} InsertOrdered<T(!new)>(less: (T, T) -> bool, x: T, xs: seq<T>)
    requires StrictOrder(less) && Ordered(less, xs) && x !in xs
    requires forall y :: y in xs ==> less(x, y) || less(y, x)
    ensures Ordered(less, Insert(less, x, xs))
    decreases |xs|
  {
    if |xs| > 0 && !less(x, xs[0]) {
      InsertOrdered(less, x, xs[1..]);
      InsertElements(less, x, xs[1..]);
      var rest := Insert(less, x, xs[1..]);
      assert xs[0] in xs;
      forall j | 0 <= j < |rest| ensures less(xs[0], rest[j]) {
        assert rest[j] in Elements(rest);
      }
    }
  }

  lemma {:induction false} SortElements<T>(less: (T, T) -> bool, xs: seq<T>)
    ensures Elements(Sort(less, xs)) == Elements(xs)
  {
    var n := |xs| - 1;
    if n >= 0 {
      SortElements(less, xs[..n]);
      InsertElements(less, xs[n], Sort(less, xs[..n]));
      assert xs == xs[..n] + [xs[n]];
    }
  }

  lemma {:induction false} SortOrdered<T(!new)>(less: (T, T) -> bool, xs: seq<T>)
    requires StrictOrder(less) && Distinct(xs) && TotalOn(less, Elements(xs))
    ensures Ordered(less, Sort(less, xs))
  {
    var n := |xs| - 1;
    if n >= 0 {
      assert Elements(xs[..n]) <= Elements(xs);
      SortOrdered(less, xs[..n]);
      SortElements(less, xs[..n]);
      var smaller := Sort(less, xs[..n]);
      forall y | y in smaller ensures (less(xs[n], y) || less(y, xs[n])) && y != xs[n] {
        assert y in Elements(smaller);
        assert xs[n] in Elements(xs);
      }
      InsertOrdered(less, xs[n], smaller);
    }
  }

  lemma OrderedTail<T(!new)>(less: (T, T) -> bool, xs: seq<T>)
    requires StrictOrder(less) && Ordered(less, xs) && |xs| > 0
    ensures Elements(xs[1..]) == Elements(xs) - {xs[0]}
  {
    assert xs == [xs[0]] + xs[1..];
  }

  /** There is only one ordered way to write a set. */
  lemma {:induction false} OneOrder<T(!new)>(less: (T, T) -> bool, a: seq<T>, b: seq<T>)
    requires StrictOrder(less) && Ordered(less, a) && Ordered(less, b) && Elements(a) == Elements(b)
    ensures a == b
    decreases |a|
  {
    assert |a| > 0 ==> a[0] in Elements(a);
    assert |b| > 0 ==> b[0] in Elements(b);
    if |a| > 0 {
      var i :| 0 <= i < |b| && b[i] == a[0];
      var j :| 0 <= j < |a| && a[j] == b[0];
      OrderedTail(less, a);
      OrderedTail(less, b);
      OneOrder(less, a[1..], b[1..]);
      assert a == [a[0]] + a[1..] && b == [b[0]] + b[1..];
    }
  }

  /** The ordered elements of a set. */
  ghost function Listing<T(!new)>(less: (T, T) -> bool, s: set<T>): seq<T> {
    if s == {} then []
    else
      var x :| x in s;
      Insert(less, x, Listing(less, s - {x}))
  }

  lemma {:induction false} ListingElements<T(!new)>(less: (T, T) -> bool, s: set<T>)
    ensures Elements(Listing(less, s)) == s
    decreases s
  {
    if s != {} {
      var x :| x in s && Listing(less, s) == Insert(less, x, Listing(less, s - {x}));
      ListingElements(less, s - {x});
      InsertElements(less, x, Listing(less, s - {x}));
    }
  }

  lemma {:induction false} ListingOrdered<T(!new)>(less: (T, T) -> bool, s: set<T>)
    requires StrictOrder(less) && TotalOn(less, s)
    ensures Ordered(less, Listing(less, s))
    decreases s
  {
    if s != {} {
      var x :| x in s && Listing(less, s) == Insert(less, x, Listing(less, s - {x}));
      var rest := Listing(less, s - {x});
      ListingOrdered(less, s - {x});
      ListingElements(less, s - {x});
      forall y | y in rest ensures y != x && (less(x, y) || less(y, x)) {
        assert y in Elements(rest);
      }
      InsertOrdered(less, x, rest);
    }
  }

  lemma OrderedDistinct<T(!new)>(less: (T, T) -> bool, xs: seq<T>)
    requires StrictOrder(less) && Ordered(less, xs)
    ensures Distinct(xs)
  {
  }

  /** Ranging over a Go map or set in whatever order, then sorting. */
  method CollectSorted<T(!new, ==)>(less: (T, T) -> bool, s: set<T>) returns (xs: seq<T>)
    requires StrictOrder(less) && TotalOn(less, s)
    ensures xs == Listing(less, s)
  {
    var found: seq<T> := [];
    var left := s;
    while left != {}
      invariant left <= s && Elements(found) == s - left && Distinct(found)
      decreases left
    {
      var x :| x in left;
      assert forall k :: 0 <= k < |found| ==> found[k] in Elements(found);
      assert Elements(found + [x]) == Elements(found) + {x};
      found := found + [x];
      left := left - {x};
    }
    SortOrdered(less, found);
    SortElements(less, found);
    ListingOrdered(less, s);
    ListingElements(less, s);
    xs := Sort(less, found);
    OneOrder(less, xs, Listing(less, s));
  }

  // ------------------------------------------- sorting by a key that may repeat

  ghost predicate InOrder<T(!new)>(less: (T, T) -> bool, xs: seq<T>) {
    forall i, j :: 0 <= i < j < |xs| ==> !less(xs[j], xs[i])
  }

  lemma {:induction false} InsertMultiset<T>(less: (T, T) -> bool, x: T, xs: seq<T>)
    ensures multiset(Insert(less, x, xs)) == multiset{x} + multiset(xs)
    decreases |xs|
  {
    if |xs| > 0 && !less(x, xs[0]) {
      InsertMultiset(less, x, xs[1..]);
      assert xs == [xs[0]] + xs[1..];
    }
  }

  lemma {:induction false} InsertInOrder<T(!new)>(less: (T, T) -> bool, x: T, xs: seq<T>)
    requires StrictOrder(less) && InOrder(less, xs)
    ensures InOrder(less, Insert(less, x, xs))
    decreases |xs|
  {
    if |xs| > 0 && !less(x, xs[0]) {
      var rest := Insert(less, x, xs[1..]);
      InsertInOrder(less, x, xs[1..]);
      InsertElements(less, x, xs[1..]);
      forall j | 0 <= j < |rest| ensures !less(rest[j], xs[0]) {
        assert rest[j] in Elements(rest);
      }
    }
  }

  /** Sorting permutes and orders, also when several elements share a key. */
  lemma {:induction false} SortPermutes<T(!new)>(less: (T, T) -> bool, xs: seq<T>)
    requires StrictOrder(less)
    ensures multiset(Sort(less, xs)) == multiset(xs) && InOrder(less, Sort(less, xs))
  {
    if |xs| > 0 {
      var n := |xs| - 1;
      SortPermutes(less, xs[..n]);
      InsertMultiset(less, xs[n], Sort(less, xs[..n]));
      InsertInOrder(less, xs[n], Sort(less, xs[..n]));
      assert xs == xs[..n] + [xs[n]];
    }
  }

  lemma LessIsStrict()
    ensures StrictOrder(Less)
  {
    forall a ensures !Less(a, a) {
      LessIrreflexive(a);
    }
    forall a, b, c | Less(a, b) && Less(b, c) ensures Less(a, c) {
      LessTransitive(a, b, c);
    }
  }

  lemma LessIsTotalOn(s: set<string>)
    ensures TotalOn(Less, s)
  {
    forall a, b | a in s && b in s && a != b ensures Less(a, b) || Less(b, a) {
      LessTotal(a, b);
    }
  }

  /** The keys of a map, collected and sorted. */
  method SortedKeys(keys: set<string>) returns (sorted: seq<string>)
    ensures sorted == Listing(Less, keys) && Elements(sorted) == keys && Distinct(sorted)
    ensures forall k :: 0 <= k < |sorted| ==> sorted[k] in keys
  {
    LessIsStrict();
    LessIsTotalOn(keys);
    sorted := CollectSorted(Less, keys);
    ListingElements(Less, keys);
    ListingOrdered(Less, keys);
    OrderedDistinct(Less, sorted);
    forall k | 0 <= k < |sorted| ensures sorted[k] in keys {
      assert sorted[k] in Elements(sorted);
    }
  }
}
