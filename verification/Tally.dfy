/** Counting maps. `Count(s, f)` is the definition by a full scan: for every
    value `f` takes on `s`, how many members of `s` take it, with no zero
    entries. The index never scans; it bumps and drops single entries, and the
    lemmas here say that this keeps such a map equal to the scan.
 */
module Tally {

  /** Reading a missing Go map entry yields zero. */
  function Get<K>(m: map<K, int>, k: K): int {
    if k in m then m[k] else 0
  }

  /** `m[k]++` */
  function Bump<K>(m: map<K, int>, k: K): map<K, int> {
    m[k := Get(m, k) + 1]
  }

  /** Decrement, deleting the entry when it reaches zero. */
  function Drop<K>(m: map<K, int>, k: K): map<K, int> {
    var n := Get(m, k) - 1;
    if n <= 0 then m - {k} else m[k := n]
  }

  function Sub<K, L>(m: map<K, map<L, int>>, k: K): map<L, int> {
    if k in m then m[k] else map[]
  }

  function Bump2<K, L>(m: map<K, map<L, int>>, k: K, l: L): map<K, map<L, int>> {
    m[k := Bump(Sub(m, k), l)]
  }

  /** Decrement an inner entry; an emptied inner map is deleted as well. */
  function Drop2<K, L>(m: map<K, map<L, int>>, k: K, l: L): map<K, map<L, int>> {
    if k !in m then m
    else
      var inner := Drop(m[k], l);
      if inner == map[] then m - {k} else m[k := inner]
  }

  function Members<K, L>(m: map<K, set<L>>, k: K): set<L> {
    if k in m then m[k] else {}
  }

  function Join<K, L>(m: map<K, set<L>>, k: K, l: L): map<K, set<L>> {
    m[k := Members(m, k) + {l}]
  }

  function Leave<K, L>(m: map<K, set<L>>, k: K, l: L): map<K, set<L>> {
    if k !in m then m
    else
      var inner := m[k] - {l};
      if inner == {} then m - {k} else m[k := inner]
  }

  lemma MinusAbsent<K, V>(m: map<K, V>, k: K)
    requires k !in m
    ensures m - {k} == m
  {}

  lemma MinusMinus<K, V>(m: map<K, V>, a: set<K>, b: set<K>)
    ensures m - a - b == m - (a + b)
  {}

  lemma MinusKeys<K, V>(m: map<K, V>, k: K)
    ensures (m - {k}).Keys == m.Keys - {k}
  {}

  lemma UpdateKeys<K, V>(m: map<K, V>, k: K, v: V)
    ensures (m[k := v]).Keys == m.Keys + {k}
  {}

  // ---- Definitions by scanning ----

  ghost function Image<X(!new), K>(s: set<X>, f: X -> K): set<K> {
    set x | x in s :: f(x)
  }

  ghost function Fiber<X(!new), K>(s: set<X>, f: X -> K, k: K): set<X> {
    set x | x in s && f(x) == k
  }

  ghost function Count<X(!new), K>(s: set<X>, f: X -> K): map<K, int> {
    map k | k in Image(s, f) :: |Fiber(s, f, k)|
  }

  ghost function Count2<X(!new), K, L>(s: set<X>, f: X -> K, g: X -> L): map<K, map<L, int>> {
    map k | k in Image(s, f) :: Count(Fiber(s, f, k), g)
  }

  ghost function Group<X(!new), K, L>(s: set<X>, f: X -> K, g: X -> L): map<K, set<L>> {
    map k | k in Image(s, f) :: Image(Fiber(s, f, k), g)
  }

  // ---- Incremental maintenance agrees with the scan ----

  lemma CountAt<X(!new), K>(s: set<X>, f: X -> K, k: K)
    ensures Get(Count(s, f), k) == |Fiber(s, f, k)|
    ensures k in Count(s, f) <==> Fiber(s, f, k) != {}
  {
    if k !in Image(s, f) {
      assert Fiber(s, f, k) == {};
    } else {
      var x :| x in s && f(x) == k;
      assert x in Fiber(s, f, k);
    }
  }

  lemma FiberInsert<X(!new), K>(s: set<X>, f: X -> K, x: X, k: K)
    ensures Fiber(s + {x}, f, k) == if f(x) == k then Fiber(s, f, k) + {x} else Fiber(s, f, k)
  {}

  lemma FiberErase<X(!new), K>(s: set<X>, f: X -> K, x: X, k: K)
    ensures Fiber(s - {x}, f, k) == if f(x) == k then Fiber(s, f, k) - {x} else Fiber(s, f, k)
  {}

  lemma CountInsert<X(!new), K(!new)>(s: set<X>, f: X -> K, x: X)
    requires x !in s
    ensures Count(s + {x}, f) == Bump(Count(s, f), f(x))
  {
    var m, m' := Count(s, f), Count(s + {x}, f);
    assert m'.Keys == m.Keys + {f(x)} by {
      assert Image(s + {x}, f) == Image(s, f) + {f(x)};
    }
    forall k | k in m' ensures m'[k] == Bump(m, f(x))[k] {
      FiberInsert(s, f, x, k);
      CountAt(s, f, k);
    }
  }

  lemma CountErase<X(!new), K(!new)>(s: set<X>, f: X -> K, x: X)
    requires x in s
    ensures Count(s - {x}, f) == Drop(Count(s, f), f(x))
  {
    var s' := s - {x};
    assert s' + {x} == s;
    CountInsert(s', f, x);
    CountAt(s', f, f(x));
    CountAt(s, f, f(x));
    assert Count(s, f) == Bump(Count(s', f), f(x));
    if f(x) !in Count(s', f) {
      assert Bump(Count(s', f), f(x)) - {f(x)} == Count(s', f);
    } else {
      assert Fiber(s', f, f(x)) != {};
      assert Drop(Count(s, f), f(x)) == Count(s', f);
    }
  }

  lemma ImageInsert<X(!new), K(!new)>(s: set<X>, f: X -> K, x: X)
    ensures Image(s + {x}, f) == Image(s, f) + {f(x)}
  {}

  lemma SubCount2<X(!new), K(!new), L(!new)>(s: set<X>, f: X -> K, g: X -> L, k: K)
    ensures Sub(Count2(s, f, g), k) == Count(Fiber(s, f, k), g)
  {
    if k !in Image(s, f) {
      assert Fiber(s, f, k) == {};
      assert Image(Fiber(s, f, k), g) == {};
    }
  }

  lemma Count2Insert<X(!new), K(!new), L(!new)>(s: set<X>, f: X -> K, g: X -> L, x: X)
    requires x !in s
    ensures Count2(s + {x}, f, g) == Bump2(Count2(s, f, g), f(x), g(x))
  {
    hide Count, Image, Fiber, Bump;
    var m, m' := Count2(s, f, g), Count2(s + {x}, f, g);
    ImageInsert(s, f, x);
    forall k | k in Image(s + {x}, f) ensures m'[k] == Bump2(m, f(x), g(x))[k] {
      FiberInsert(s, f, x, k);
      if k == f(x) {
        SubCount2(s, f, g, k);
        FiberMember(s, f, x, k);
        CountInsert(Fiber(s, f, k), g, x);
      }
    }
  }

  lemma FiberMember<X(!new), K(!new)>(s: set<X>, f: X -> K, x: X, k: K)
    ensures x in Fiber(s, f, k) <==> x in s && f(x) == k
  {}

  lemma Count2Erase<X(!new), K(!new), L(!new)>(s: set<X>, f: X -> K, g: X -> L, x: X)
    requires x in s
    ensures Count2(s - {x}, f, g) == Drop2(Count2(s, f, g), f(x), g(x))
  {
    var s' := s - {x};
    forall k | k != f(x) ensures Fiber(s', f, k) == Fiber(s, f, k) {
      FiberErase(s, f, x, k);
    }
    FiberErase(s, f, x, f(x));
    var fib := Fiber(s, f, f(x));
    assert x in fib;
    CountErase(fib, g, x);
    assert f(x) in Image(s, f);
    var inner := Count(fib - {x}, g);
    assert Drop(Count2(s, f, g)[f(x)], g(x)) == inner;
    if fib - {x} == {} {
      assert Image(fib - {x}, g) == {};
      assert inner == map[];
      assert Image(s', f) == Image(s, f) - {f(x)} by {
        assert forall y :: y in s' ==> f(y) != f(x) by {
          forall y | y in s' ensures f(y) != f(x) {
            assert f(y) == f(x) ==> y in fib - {x};
          }
        }
        forall k | k in Image(s, f) - {f(x)} ensures k in Image(s', f) {
          var y :| y in s && f(y) == k;
          assert y in s';
        }
      }
    } else {
      var y :| y in fib - {x};
      assert g(y) in inner;
      assert inner != map[];
      assert Image(s', f) == Image(s, f) by {
        forall k | k in Image(s, f) ensures k in Image(s', f) {
          var z :| z in s && f(z) == k;
          assert (if z == x then y else z) in s';
        }
      }
    }
  }

  lemma GroupInsert<X(!new), K(!new), L(!new)>(s: set<X>, f: X -> K, g: X -> L, x: X)
    ensures Group(s + {x}, f, g) == Join(Group(s, f, g), f(x), g(x))
  {
    assert Image(s + {x}, f) == Image(s, f) + {f(x)};
    forall k | k != f(x) ensures Fiber(s + {x}, f, k) == Fiber(s, f, k) {
      FiberInsert(s, f, x, k);
    }
    FiberInsert(s, f, x, f(x));
    var fib := Fiber(s, f, f(x));
    if f(x) !in Image(s, f) {
      assert fib == {};
    }
    assert Image(fib + {x}, g) == Image(fib, g) + {g(x)};
    assert Members(Group(s, f, g), f(x)) == Image(fib, g);
  }

  /** Removal needs `(f, g)` to identify the members of `s`. */
  lemma GroupErase<X(!new), K(!new), L(!new)>(s: set<X>, f: X -> K, g: X -> L, x: X)
    requires forall y :: y in s && f(y) == f(x) && g(y) == g(x) ==> y == x
    ensures Group(s - {x}, f, g) == Leave(Group(s, f, g), f(x), g(x))
  {
    var s' := s - {x};
    forall k | k != f(x) ensures Fiber(s', f, k) == Fiber(s, f, k) {
      FiberErase(s, f, x, k);
    }
    FiberErase(s, f, x, f(x));
    var fib := Fiber(s, f, f(x));
    assert Image(fib - {x}, g) == Image(fib, g) - {g(x)};
    if fib - {x} == {} {
      assert Image(fib - {x}, g) == {};
      assert Image(s', f) == Image(s, f) - {f(x)} by {
        forall k | k in Image(s, f) - {f(x)} ensures k in Image(s', f) {
          var y :| y in s && f(y) == k;
          assert y in s';
        }
        assert forall y :: y in s' && f(y) == f(x) ==> y in fib - {x};
      }
    } else {
      var y :| y in fib - {x};
      assert g(y) in Image(fib - {x}, g);
      assert Image(s', f) == Image(s, f) by {
        forall k | k in Image(s, f) ensures k in Image(s', f) {
          var z :| z in s && f(z) == k;
          assert (if z == x then y else z) in s';
        }
      }
    }
  }

  // ---- Conservation ----

  /** The sum of the values of a map. */
  ghost function Total<K(!new)>(m: map<K, int>): int {
    if m == map[] then 0
    else
      var k :| k in m;
      m[k] + Total(m - {k})
  }

  lemma {:induction false} TotalSplit<K(!new)>(m: map<K, int>, k: K)
    requires k in m
    ensures Total(m) == m[k] + Total(m - {k})
    decreases |m|
  {
    var c :| c in m && Total(m) == m[c] + Total(m - {c});
    if c != k {
      TotalSplit(m - {c}, k);
      TotalSplit(m - {k}, c);
      assert m - {c} - {k} == m - {k} - {c};
    }
  }

  /** Counts by any attribute add up to the number of members counted. */
  lemma {:induction false} CountConserves<X(!new), K(!new)>(s: set<X>, f: X -> K)
    ensures Total(Count(s, f)) == |s|
    decreases |s|
  {
    if s == {} {
      assert Image(s, f) == {};
      assert Count(s, f) == map[];
    } else {
      var x :| x in s;
      var rest := s - {x};
      CountConserves(rest, f);
      assert rest + {x} == s;
      CountInsert(rest, f, x);
      var m, m' := Count(rest, f), Count(s, f);
      TotalSplit(m', f(x));
      if f(x) in m {
        TotalSplit(m, f(x));
      }
      assert m' - {f(x)} == m - {f(x)};
      assert f(x) !in m ==> m - {f(x)} == m;
    }
  }
}
