/** The standard library sort the index relies on (Go's `sort.Slice`), modelled
    by the contract it documents: a permutation of the input in the order of the
    comparator. The comparators of the index are strict total orders on the
    slices they are given, which makes the result unique.
 */
module Sorting {
  import opened Ordering

  function Insert<T>(less: (T, T) -> bool, x: T, q: seq<T>): (r: seq<T>)
    ensures multiset(r) == multiset(q) + multiset{x}
  {
    if q == [] then [x]
    else if less(x, q[0]) then [x] + q
    else
      assert q == [q[0]] + q[1..];
      [q[0]] + Insert(less, x, q[1..])
  }

  function Sort<T>(less: (T, T) -> bool, q: seq<T>): (r: seq<T>)
    ensures multiset(r) == multiset(q)
  {
    if q == [] then []
    else
      assert q == [q[0]] + q[1..];
      Insert(less, q[0], Sort(less, q[1..]))
  }

  lemma {:induction false} InsertAscending<T(!new)>(less: (T, T) -> bool, x: T, q: seq<T>, s: set<T>)
    requires StrictOn(less, s) && Elems(q) <= s && x in s && x !in q
    requires Ascending(less, q)
    ensures Ascending(less, Insert(less, x, q))
  {
    if q != [] {
      assert q[0] in Elems(q);
      assert forall i :: 0 <= i < |q| ==> q[i] in Elems(q);
      if !less(x, q[0]) {
        assert Elems(q[1..]) <= Elems(q);
        InsertAscending(less, x, q[1..], s);
        var t := Insert(less, x, q[1..]);
        forall i | 0 <= i < |t| ensures less(q[0], t[i]) {
          assert t[i] in multiset(t);
          assert t[i] == x || t[i] in q[1..];
        }
      } else {
        forall i | 0 <= i < |q| ensures less(x, q[i]) {
          assert i > 0 ==> less(q[0], q[i]);
        }
      }
    }
  }

  /** Sequences with one multiset have the same members and length. */
  lemma SameMembers<T(!new)>(p: seq<T>, q: seq<T>)
    requires multiset(p) == multiset(q)
    ensures Elems(p) == Elems(q) && |p| == |q|
    ensures forall x :: x in p <==> x in q
  {
    assert |multiset(p)| == |multiset(q)|;
    forall x ensures x in p <==> x in q {
      assert x in p <==> x in multiset(p);
      assert x in q <==> x in multiset(q);
    }
  }

  lemma TailDistinct<T(!new)>(q: seq<T>)
    requires q != [] && Distinct(q)
    ensures Distinct(q[1..]) && q[0] !in q[1..] && Elems(q[1..]) <= Elems(q) && q[0] in Elems(q)
  {}

  lemma {:induction false} SortAscending<T(!new)>(less: (T, T) -> bool, q: seq<T>, s: set<T>)
    requires StrictOn(less, s) && Elems(q) <= s && Distinct(q)
    ensures Ascending(less, Sort(less, q))
    ensures Elems(Sort(less, q)) == Elems(q)
    ensures |Sort(less, q)| == |q|
  {
    hide StrictOn, Distinct, Ascending, Elems, Insert;
    if q != [] {
      TailDistinct(q);
      SortAscending(less, q[1..], s);
      SameMembers(Sort(less, q[1..]), q[1..]);
      InsertAscending(less, q[0], Sort(less, q[1..]), s);
    } else {
      assert Ascending(less, []) by { NothingAscends(less); }
    }
    SameMembers(Sort(less, q), q);
  }

  lemma NothingAscends<T(!new)>(less: (T, T) -> bool)
    ensures Ascending(less, [])
  {}

  /** Two ascending listings of the same set are the same listing, so the
      outcome of a sort does not depend on the order its input was gathered in. */
  lemma ListingUnique<T(!new)>(less: (T, T) -> bool, p: seq<T>, q: seq<T>, s: set<T>)
    requires StrictOn(less, s) && Elems(p) == s && Elems(q) == s
    requires Ascending(less, p) && Ascending(less, q)
    ensures p == q
  {
    assert |p| == |q| by {
      ListingLength(less, p, s);
      ListingLength(less, q, s);
    }
    forall i | 0 <= i < |p| ensures p[i] == q[i] {
      assert p[i] in Elems(q);
      var j :| 0 <= j < |q| && q[j] == p[i];
      BelowInListing(less, p, s, i);
      BelowInListing(less, q, s, j);
    }
  }

  lemma ListingLength<T(!new)>(less: (T, T) -> bool, p: seq<T>, s: set<T>)
    requires StrictOn(less, s) && Elems(p) == s && Ascending(less, p)
    ensures |p| == |s|
  {
    assert Distinct(p) by {
      forall a, b | 0 <= a < b < |p| ensures p[a] != p[b] {
        assert p[a] in Elems(p) && less(p[a], p[b]);
      }
    }
    DistinctCard(p);
  }

  /** `sort.Slice`: sorts the slice in place. */
  method SortSlice<T(!new)>(a: array<T>, less: (T, T) -> bool)
    requires Distinct(a[..]) && StrictOn(less, Elems(a[..]))
    modifies a
    ensures multiset(a[..]) == multiset(old(a[..]))
    ensures Elems(a[..]) == Elems(old(a[..])) && Ascending(less, a[..])
  {
    var q := Sort(less, a[..]);
    SortAscending(less, a[..], Elems(a[..]));
    var n := 0;
    while n < a.Length
      invariant 0 <= n <= a.Length == |q|
      invariant a[..n] == q[..n]
    {
      a[n] := q[n];
      n := n + 1;
    }
    assert a[..] == a[..a.Length] == q;
  }
}
