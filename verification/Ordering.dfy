/** Orders: the byte-wise string order of the Go runtime, what it means for a
    comparator to be a strict total order on a finite set, and selection of the
    n least elements of such a set.

    Selection is defined through ranks, so it mentions neither sorting nor any
    order of enumeration; `SortedCutIsLowest` ties it to "sort, then take a
    prefix", which is how the index picks its eviction victims.
 */
module Ordering {

  /** Lexicographic order on strings, as Go's `<`. */
  predicate Less(a: string, b: string) {
    |b| > 0 && (|a| == 0 || a[0] < b[0] || (a[0] == b[0] && Less(a[1..], b[1..])))
  }

  /** The first difference decides, and a proper beginning comes first. */
  ghost predicate ByteBefore(a: string, b: string) {
    exists k: nat :: k <= |a| && k < |b| && a[..k] == b[..k] && (k == |a| || a[k] < b[k])
  }

  lemma {:induction false} LessIsByteOrder(a: string, b: string)
    ensures Less(a, b) <==> ByteBefore(a, b)
  {
    if |a| > 0 && |b| > 0 && a[0] == b[0] {
      LessIsByteOrder(a[1..], b[1..]);
      if ByteBefore(a[1..], b[1..]) {
        var k: nat :| k <= |a[1..]| && k < |b[1..]| && a[1..][..k] == b[1..][..k] && (k == |a[1..]| || a[1..][k] < b[1..][k]);
        assert a[..k + 1] == [a[0]] + a[1..][..k] && b[..k + 1] == [b[0]] + b[1..][..k];
      }
      if ByteBefore(a, b) {
        var k: nat :| k <= |a| && k < |b| && a[..k] == b[..k] && (k == |a| || a[k] < b[k]);
        assert k > 0;
        assert a[1..][..k - 1] == a[..k][1..] && b[1..][..k - 1] == b[..k][1..];
      }
    } else if |b| > 0 && (|a| == 0 || a[0] < b[0]) {
      assert a[..0] == b[..0];
    }
  }

  /** Rows of as many strings: the first column that differs decides. */
  ghost predicate RowBefore(a: seq<string>, b: seq<string>)
    requires |a| == |b|
  {
    exists k: nat :: k < |a| && a[..k] == b[..k] && ByteBefore(a[k], b[k])
  }

  lemma LessIrreflexive(a: string)
    ensures !Less(a, a)
  {}

  lemma {:induction false} LessTransitive(a: string, b: string, c: string)
    requires Less(a, b) && Less(b, c)
    ensures Less(a, c)
  {
    if |a| > 0 && a[0] == b[0] == c[0] {
      LessTransitive(a[1..], b[1..], c[1..]);
    }
  }

  lemma {:induction false} LessTotal(a: string, b: string)
    ensures a == b || Less(a, b) || Less(b, a)
  {
    if |a| > 0 && |b| > 0 && a[0] == b[0] {
      LessTotal(a[1..], b[1..]);
      assert a[1..] == b[1..] ==> a == [a[0]] + a[1..] == [b[0]] + b[1..] == b;
    }
  }

  /** `less` is a strict total order on the members of `s`. */
  ghost predicate StrictOn<T(!new)>(less: (T, T) -> bool, s: set<T>) {
    && (forall x :: x in s ==> !less(x, x))
    && (forall x, y, z :: x in s && y in s && z in s && less(x, y) && less(y, z) ==> less(x, z))
    && (forall x, y :: x in s && y in s && x != y ==> less(x, y) || less(y, x))
  }

  ghost function Below<T(!new)>(less: (T, T) -> bool, s: set<T>, x: T): set<T> {
    set y | y in s && less(y, x)
  }

  /** The members of `s` with fewer than `n` members of `s` before them. */
  ghost function Lowest<T(!new)>(less: (T, T) -> bool, s: set<T>, n: int): set<T> {
    set x | x in s && |Below(less, s, x)| < n
  }

  ghost function Elems<T(!new)>(q: seq<T>): set<T> {
    set x | x in q
  }

  ghost predicate Distinct<T(!new)>(q: seq<T>) {
    forall i, j :: 0 <= i < j < |q| ==> q[i] != q[j]
  }

  ghost predicate Ascending<T(!new)>(less: (T, T) -> bool, q: seq<T>) {
    forall i, j :: 0 <= i < j < |q| ==> less(q[i], q[j])
  }

  lemma {:induction false} DistinctCard<T(!new)>(q: seq<T>)
    requires Distinct(q)
    ensures |Elems(q)| == |q|
  {
    if q != [] {
      var init := q[..|q| - 1];
      DistinctCard(init);
      assert Elems(q) == Elems(init) + {q[|q| - 1]};
      assert q[|q| - 1] !in Elems(init);
    }
  }

  lemma SubsetCard<T(!new)>(a: set<T>, b: set<T>)
    requires a <= b
    ensures |a| <= |b|
    ensures |a| == |b| ==> a == b
    ensures |b - a| == |b| - |a|
  {
    assert b == a + (b - a);
  }

  /** In an ascending listing of `s`, exactly the elements before position `i`
      are below the element at `i`. */
  lemma BelowInListing<T(!new)>(less: (T, T) -> bool, q: seq<T>, s: set<T>, i: nat)
    requires StrictOn(less, s) && Ascending(less, q) && Elems(q) == s && i < |q|
    ensures |Below(less, s, q[i])| == i
  {
    assert forall j :: 0 <= j < |q| ==> q[j] in s;
    assert Below(less, s, q[i]) == Elems(q[..i]) by {
      forall y | y in Below(less, s, q[i]) ensures y in q[..i] {
        assert y in Elems(q);
        var j :| 0 <= j < |q| && q[j] == y;
        assert j < i;
        assert q[..i][j] == y;
      }
      forall y | y in Elems(q[..i]) ensures y in Below(less, s, q[i]) {
        var j :| 0 <= j < i && q[j] == y;
      }
    }
    assert Distinct(q[..i]) by {
      forall a, b | 0 <= a < b < i ensures q[a] != q[b] {
        assert less(q[a], q[b]);
      }
    }
    DistinctCard(q[..i]);
  }

  /** Sorting and cutting at `n` selects the `n` lowest elements. */
  lemma SortedCutIsLowest<T(!new)>(less: (T, T) -> bool, q: seq<T>, s: set<T>, n: nat)
    requires StrictOn(less, s) && Ascending(less, q) && Elems(q) == s && n <= |q|
    ensures Elems(q[..n]) == Lowest(less, s, n)
    ensures |Elems(q[..n])| == n
  {
    forall i | 0 <= i < |q| ensures |Below(less, s, q[i])| == i {
      BelowInListing(less, q, s, i);
    }
    forall x | x in Lowest(less, s, n) ensures x in Elems(q[..n]) {
      assert x in Elems(q);
      var j :| 0 <= j < |q| && q[j] == x;
      assert q[..n][j] == x;
    }
    forall x | x in Elems(q[..n]) ensures x in Lowest(less, s, n) {
      var j :| 0 <= j < n && q[j] == x;
      assert x in Elems(q);
    }
    assert Distinct(q[..n]) by {
      forall a, b | 0 <= a < b < n ensures q[a] != q[b] {
        assert q[a] in s && less(q[a], q[b]);
      }
    }
    DistinctCard(q[..n]);
  }

  /** The lowest elements precede every other one, and no other selection of
      the same size does. */
  lemma LowestDominates<T(!new)>(less: (T, T) -> bool, s: set<T>, n: int, v: T, w: T)
    requires StrictOn(less, s) && v in Lowest(less, s, n) && w in s - Lowest(less, s, n)
    ensures less(v, w)
  {
    if !less(v, w) {
      assert less(w, v);
      assert Below(less, s, w) <= Below(less, s, v);
      SubsetCard(Below(less, s, w), Below(less, s, v));
    }
  }

  lemma LowestUnique<T(!new)>(less: (T, T) -> bool, s: set<T>, v: set<T>)
    requires StrictOn(less, s) && v <= s
    requires forall x, y :: x in v && y in s - v ==> less(x, y)
    ensures v == Lowest(less, s, |v|)
  {
    forall x | x in v ensures x in Lowest(less, s, |v|) {
      assert Below(less, s, x) <= v - {x} by {
        forall y | y in Below(less, s, x) ensures y in v - {x} {
          assert less(y, x) && !less(y, y);
        }
      }
      SubsetCard(Below(less, s, x), v - {x});
    }
    forall x | x in s - v ensures x !in Lowest(less, s, |v|) {
      assert v <= Below(less, s, x);
      SubsetCard(v, Below(less, s, x));
    }
  }
}
