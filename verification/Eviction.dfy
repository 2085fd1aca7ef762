/** What the two size bounds guarantee (internal/index/eviction.go): each evicts
    exactly the excess, chooses the least valuable candidates under a strict
    total order, touches nothing outside its scope, and leaves no freedom for the
    order in which a Go map happens to be walked.
 */
module Eviction {
  import opened Ordering
  import Sorting
  import opened Tally
  import opened Domain
  import opened Policy
  import opened IndexModel

  // ---- The comparators are strict total orders ----

  lemma KeyLessStrict(x: PrefixKey, y: PrefixKey, z: PrefixKey)
    ensures !KeyLess(x, x)
    ensures x != y ==> KeyLess(x, y) || KeyLess(y, x)
    ensures KeyLess(x, y) && KeyLess(y, z) ==> KeyLess(x, z)
  {
    FieldStrict(x.tenant, y.tenant, z.tenant);
    FieldStrict(x.model, y.model, z.model);
    FieldStrict(x.hashScheme, y.hashScheme, z.hashScheme);
    FieldStrict(x.adapter, y.adapter, z.adapter);
    FieldStrict(x.prefixHash, y.prefixHash, z.prefixHash);
  }

  lemma FieldStrict(a: string, b: string, c: string)
    ensures !Less(a, a) && !Less(b, b)
    ensures a == b || Less(a, b) || Less(b, a)
    ensures Less(a, b) && Less(b, c) ==> Less(a, c)
    ensures !(Less(a, b) && Less(b, a))
  {
    LessIrreflexive(a);
    LessIrreflexive(b);
    LessTotal(a, b);
    if Less(a, b) && Less(b, c) { LessTransitive(a, b, c); }
    if Less(a, b) && Less(b, a) { LessTransitive(a, b, a); }
  }

  lemma EvictFirstStrict(s: set<CapRef>)
    ensures StrictOn(EvictFirst, s)
  {
    forall x, y, z | x in s && y in s && z in s
      ensures !EvictFirst(x, x)
      ensures x != y ==> EvictFirst(x, y) || EvictFirst(y, x)
      ensures EvictFirst(x, y) && EvictFirst(y, z) ==> EvictFirst(x, z)
    {
      KeyLessStrict(x.key, y.key, z.key);
      KeyLessStrict(y.key, x.key, y.key);
      FieldStrict(x.replica, y.replica, z.replica);
    }
  }

  lemma OlderStrict(es: Entries, tenant: string)
    ensures StrictOn(Older, QuotaRefs(es, tenant))
  {
    var s := QuotaRefs(es, tenant);
    forall x, y, z | x in s && y in s && z in s
      ensures !Older(x, x)
      ensures x != y ==> Older(x, y) || Older(y, x)
      ensures Older(x, y) && Older(y, z) ==> Older(x, z)
    {
      assert x.key.tenant == y.key.tenant == z.key.tenant;
      KeyLessStrict(x.key, y.key, z.key);
    }
  }

  // ---- Selection through an injective reference ----

  lemma {:induction false} InjectiveCard<X(!new), K(!new)>(s: set<X>, f: X -> K)
    requires forall x, y :: x in s && y in s && f(x) == f(y) ==> x == y
    ensures |Image(s, f)| == |s|
    decreases |s|
  {
    if s == {} {
      assert Image(s, f) == {};
    } else {
      var x :| x in s;
      InjectiveCard(s - {x}, f);
      assert Image(s, f) == Image(s - {x}, f) + {f(x)};
    }
  }

  lemma LowestCard<T(!new)>(less: (T, T) -> bool, s: set<T>, n: int)
    requires StrictOn(less, s)
    ensures Lowest(less, s, n) <= s
    ensures |Lowest(less, s, n)| == if n <= 0 then 0 else if n <= |s| then n else |s|
  {
    if n <= 0 {
      assert Lowest(less, s, n) == {};
    } else {
      var q := Enumerate(s);
      Sorting.SortAscending(less, q, s);
      var sorted := Sorting.Sort(less, q);
      Sorting.ListingLength(less, sorted, s);
      if n <= |s| {
        SortedCutIsLowest(less, sorted, s, n);
      } else {
        forall x | x in s ensures |Below(less, s, x)| < n {
          SubsetCard(Below(less, s, x), s);
        }
        assert Lowest(less, s, n) == s;
      }
    }
  }

  lemma {:induction false} Enumerate<T(!new)>(s: set<T>) returns (q: seq<T>)
    ensures Distinct(q) && Elems(q) == s
    decreases |s|
  {
    if s == {} {
      q := [];
    } else {
      var x :| x in s;
      var rest := Enumerate(s - {x});
      assert x !in Elems(rest);
      q := [x] + rest;
      assert Elems(q) == {x} + Elems(rest);
    }
  }

  ghost predicate InjectiveOn<X(!new), K(!new)>(s: set<X>, f: X -> K) {
    forall x, y :: x in s && y in s && f(x) == f(y) ==> x == y
  }

  function Excess(n: int, size: int): int {
    if n <= 0 then 0 else if n <= size then n else size
  }

  /** What `f` names of the `n` lowest references. */
  ghost function Picked<X(!new), K(!new)>(less: (X, X) -> bool, refs: set<X>, f: X -> K, n: int): set<K> {
    Image(Lowest(less, refs, n), f)
  }

  lemma PickedExact<X(!new), K(!new)>(less: (X, X) -> bool, refs: set<X>, f: X -> K, n: int)
    requires StrictOn(less, refs) && InjectiveOn(refs, f)
    ensures Picked(less, refs, f, n) <= Image(refs, f)
    ensures |Picked(less, refs, f, n)| == Excess(n, |refs|)
    ensures forall x, y :: x in refs && y in refs && f(x) in Picked(less, refs, f, n) && f(y) !in Picked(less, refs, f, n)
              ==> less(x, y)
  {
    var low := Lowest(less, refs, n);
    LowestCard(less, refs, n);
    InjectiveCard(low, f);
    forall x, y | x in refs && y in refs && f(x) in Picked(less, refs, f, n) && f(y) !in Picked(less, refs, f, n)
      ensures less(x, y)
    {
      assert x in low && y !in low;
      LowestDominates(less, refs, n, x, y);
    }
  }

  lemma PickedUnique<X(!new), K(!new)>(less: (X, X) -> bool, refs: set<X>, f: X -> K, n: int, chosen: set<K>)
    requires StrictOn(less, refs) && InjectiveOn(refs, f)
    requires chosen <= Image(refs, f) && |chosen| == Excess(n, |refs|)
    requires forall x, y :: x in refs && y in refs && f(x) in chosen && f(y) !in chosen ==> less(x, y)
    ensures chosen == Picked(less, refs, f, n)
  {
    var low := set x | x in refs && f(x) in chosen;
    assert Image(low, f) == chosen;
    InjectiveCard(low, f);
    LowestUnique(less, refs, low);
    LowestCard(less, refs, n);
    assert Lowest(less, refs, n) == low by {
      if n <= 0 {
        assert low == {} && Lowest(less, refs, n) == {};
      } else if n > |refs| {
        SubsetCard(low, refs);
        SubsetCard(Lowest(less, refs, n), refs);
      }
    }
  }

  // ---- Quota ----

  lemma QuotaRefsMatchKeys(es: Entries, tenant: string)
    ensures InjectiveOn(QuotaRefs(es, tenant), RefKey)
    ensures Image(QuotaRefs(es, tenant), RefKey) == TenantKeys(es.Keys, tenant)
    ensures |QuotaRefs(es, tenant)| == |TenantKeys(es.Keys, tenant)|
  {
    var refs, keys := QuotaRefs(es, tenant), TenantKeys(es.Keys, tenant);
    forall k | k in keys ensures k in Image(refs, RefKey) {
      assert QuotaRefOf(es, k) in refs && RefKey(QuotaRefOf(es, k)) == k;
    }
    InjectiveCard(refs, RefKey);
  }

  /** `v` is evicted no later than `k` would be. */
  ghost predicate QuotaBefore(es: Entries, v: PrefixKey, k: PrefixKey) {
    Older(QuotaRefOf(es, v), QuotaRefOf(es, k))
  }

  lemma OlderIsRow(es: Entries, v: PrefixKey, k: PrefixKey)
    requires v.tenant == k.tenant && v != k
    ensures QuotaBefore(es, v, k) && Age(es, v) == Age(es, k) ==>
              RowBefore([v.model, v.hashScheme, v.adapter, v.prefixHash], [k.model, k.hashScheme, k.adapter, k.prefixHash])
  {
    hide Less, ByteBefore, Age;
    var a, b := [v.model, v.hashScheme, v.adapter, v.prefixHash], [k.model, k.hashScheme, k.adapter, k.prefixHash];
    var c := if v.model != k.model then 0 else if v.hashScheme != k.hashScheme then 1 else if v.adapter != k.adapter then 2 else 3;
    LessIsByteOrder(a[c], b[c]);
    assert a[..c] == b[..c];
  }

  lemma QuotaOrder(es: Entries, tenant: string, budget: int, v: PrefixKey, k: PrefixKey)
    requires 0 <= budget && v in QuotaVictims(es, tenant, budget)
    requires k in TenantKeys(es.Keys, tenant) - QuotaVictims(es, tenant, budget)
    ensures QuotaBefore(es, v, k) && Age(es, v) <= Age(es, k)
    ensures Age(es, v) == Age(es, k) ==>
              RowBefore([v.model, v.hashScheme, v.adapter, v.prefixHash], [k.model, k.hashScheme, k.adapter, k.prefixHash])
  {
    var refs, keys := QuotaRefs(es, tenant), TenantKeys(es.Keys, tenant);
    QuotaRefsMatchKeys(es, tenant);
    OlderStrict(es, tenant);
    OlderIsRow(es, v, k);
    PickedExact(Older, refs, RefKey, |keys| - budget);
    var x, y := QuotaRefOf(es, v), QuotaRefOf(es, k);
    assert x in refs && y in refs && RefKey(x) == v && RefKey(y) == k;
  }

  /** Fairness. The quota step picks exactly the excess of the tenant's distinct
      prefixes over its budget, and only prefixes that precede, and so are no
      younger than, every prefix of the tenant that stays. */
  lemma QuotaExact(es: Entries, tenant: string, budget: int)
    requires budget >= 0
    ensures var keys, gone := TenantKeys(es.Keys, tenant), QuotaVictims(es, tenant, budget);
            && gone <= keys
            && |gone| == (if |keys| > budget then |keys| - budget else 0)
            && (forall v, k :: v in gone && k in keys - gone ==>
                 QuotaBefore(es, v, k) && Age(es, v) <= Age(es, k))
  {
    hide QuotaBefore, Age, TenantKeys, StrictOn, InjectiveOn, Lowest, QuotaRefs;
    var keys, gone := TenantKeys(es.Keys, tenant), QuotaVictims(es, tenant, budget);
    assert gone <= keys && |gone| == (if |keys| > budget then |keys| - budget else 0) by {
      QuotaRefsMatchKeys(es, tenant);
      OlderStrict(es, tenant);
      PickedExact(Older, QuotaRefs(es, tenant), RefKey, |keys| - budget);
    }
    forall v, k | v in gone && k in keys - gone ensures QuotaBefore(es, v, k) && Age(es, v) <= Age(es, k) {
      QuotaOrder(es, tenant, budget, v, k);
    }
  }

  /** It removes whole prefixes: every entry of a picked prefix and nothing else,
      so other tenants are untouched and the tenant ends exactly at its budget
      when it was above it. */
  lemma QuotaEffect(es: Entries, tenant: string, budget: int)
    requires budget >= 0
    ensures var gone, left := QuotaVictims(es, tenant, budget), QuotaF(es, tenant, budget);
            && (forall h :: h in left <==> h in es && h.key !in gone)
            && (forall h :: h in left ==> left[h] == es[h])
            && (forall h :: h in es && h.key.tenant != tenant ==> h in left)
            && TenantKeys(left.Keys, tenant) == TenantKeys(es.Keys, tenant) - gone
            && |TenantKeys(left.Keys, tenant)| ==
               (if |TenantKeys(es.Keys, tenant)| > budget then budget else |TenantKeys(es.Keys, tenant)|)
  {
    QuotaExact(es, tenant, budget);
    var keys, gone, left := TenantKeys(es.Keys, tenant), QuotaVictims(es, tenant, budget), QuotaF(es, tenant, budget);
    KeysLeft(es, gone, tenant);
    SubsetCard(gone, keys);
  }

  lemma KeysLeft(es: Entries, gone: set<PrefixKey>, tenant: string)
    ensures TenantKeys((es - WithKeys(es.Keys, gone)).Keys, tenant) == TenantKeys(es.Keys, tenant) - gone
  {
    var left := es - WithKeys(es.Keys, gone);
    forall k | k in TenantKeys(es.Keys, tenant) - gone ensures k in TenantKeys(left.Keys, tenant) {
      var h :| h in es.Keys && h.key == k;
      assert h in left.Keys;
    }
    forall k | k in TenantKeys(left.Keys, tenant) ensures k in TenantKeys(es.Keys, tenant) - gone {
      var h :| h in left.Keys && h.key == k;
      assert h in es.Keys;
    }
  }

  /** No other choice of that many oldest prefixes exists. */
  lemma QuotaUnique(es: Entries, tenant: string, budget: int, chosen: set<PrefixKey>)
    requires 0 <= budget && chosen <= TenantKeys(es.Keys, tenant)
    requires |chosen| == |QuotaVictims(es, tenant, budget)|
    requires forall v, k :: v in chosen && k in TenantKeys(es.Keys, tenant) - chosen ==> QuotaBefore(es, v, k)
    ensures chosen == QuotaVictims(es, tenant, budget)
  {
    var refs, n := QuotaRefs(es, tenant), |TenantKeys(es.Keys, tenant)| - budget;
    QuotaRefsMatchKeys(es, tenant);
    assert |chosen| == Excess(n, |refs|) by {
      QuotaExact(es, tenant, budget);
    }
    assert StrictOn(Older, refs) by {
      OlderStrict(es, tenant);
    }
    forall x, y | x in refs && y in refs && RefKey(x) in chosen && RefKey(y) !in chosen ensures Older(x, y) {
      assert RefKey(y) in Image(refs, RefKey);
      assert QuotaBefore(es, x.key, y.key);
    }
    PickedUnique(Older, refs, RefKey, n, chosen);
  }

  // ---- Cap ----

  lemma CapRefsMatchHeld(es: Entries, pol: Policies, reserved: set<string>)
    ensures InjectiveOn(CapRefs(es, pol, reserved), HeldOfRef)
    ensures Image(CapRefs(es, pol, reserved), HeldOfRef) == Unreserved(es.Keys, reserved)
    ensures |CapRefs(es, pol, reserved)| == |Unreserved(es.Keys, reserved)|
  {
    var refs, held := CapRefs(es, pol, reserved), Unreserved(es.Keys, reserved);
    forall h | h in held ensures h in Image(refs, HeldOfRef) {
      assert CapRefOf(es, pol, h) in refs && HeldOfRef(CapRefOf(es, pol, h)) == h;
    }
    forall x, y | x in refs && y in refs && HeldOfRef(x) == HeldOfRef(y) ensures x == y {
      assert x == CapRefOf(es, pol, HeldOfRef(x)) && y == CapRefOf(es, pol, HeldOfRef(y));
    }
    InjectiveCard(refs, HeldOfRef);
  }

  /** `v` is evicted before `h` would be. */
  ghost predicate CapBefore(es: Entries, pol: Policies, v: Held, h: Held)
    requires v in es && h in es
  {
    EvictFirst(CapRefOf(es, pol, v), CapRefOf(es, pol, h))
  }

  lemma UnreservedSubset(held: set<Held>, reserved: set<string>)
    ensures Unreserved(held, reserved) <= held
  {}

  /** With a positive cap exactly the excess of unreserved entries is evicted,
      and every victim precedes every unreserved survivor. A cap that is not
      positive means unbounded. */
  lemma CapExact(es: Entries, pol: Policies, cfg: Config)
    ensures var held, gone := Unreserved(es.Keys, cfg.reserved), CapVictims(es, pol, cfg);
            && gone <= held
            && |gone| == (if cfg.maxEntries > 0 && |held| > cfg.maxEntries then |held| - cfg.maxEntries else 0)
            && (forall v, h :: v in gone && h in held - gone ==> CapBefore(es, pol, v, h))
  {
    hide StrictOn, InjectiveOn, Unreserved, Lowest, EvictFirst;
    var refs, held := CapRefs(es, pol, cfg.reserved), Unreserved(es.Keys, cfg.reserved);
    CapRefsMatchHeld(es, pol, cfg.reserved);
    EvictFirstStrict(refs);
    if cfg.maxEntries > 0 {
      PickedExact(EvictFirst, refs, HeldOfRef, |held| - cfg.maxEntries);
      UnreservedSubset(es.Keys, cfg.reserved);
      forall h | h in held ensures CapRefOf(es, pol, h) in refs && HeldOfRef(CapRefOf(es, pol, h)) == h {
      }
    }
  }

  /** Reserved entries are untouched, survivors keep their values, and the
      unreserved total ends exactly at the cap when it was above it. */
  lemma CapEffect(es: Entries, pol: Policies, cfg: Config)
    ensures var gone, left := CapVictims(es, pol, cfg), CapF(es, pol, cfg);
            && (forall h :: h in left <==> h in es && h !in gone)
            && (forall h :: h in left ==> left[h] == es[h])
            && (forall h :: h in es && h.key.tenant in cfg.reserved ==> h in left)
            && Unreserved(left.Keys, cfg.reserved) == Unreserved(es.Keys, cfg.reserved) - gone
            && |Unreserved(left.Keys, cfg.reserved)| ==
               (if cfg.maxEntries > 0 && |Unreserved(es.Keys, cfg.reserved)| > cfg.maxEntries then cfg.maxEntries
                else |Unreserved(es.Keys, cfg.reserved)|)
  {
    CapExact(es, pol, cfg);
    var held, gone := Unreserved(es.Keys, cfg.reserved), CapVictims(es, pol, cfg);
    assert Unreserved(CapF(es, pol, cfg).Keys, cfg.reserved) == held - gone;
    SubsetCard(gone, held);
  }

  /** The policy names the frequency algorithm, in whatever case. */
  predicate WantsLFU(pol: Policies, tenant: string) {
    && tenant in pol.policies
    && var e := pol.policies[tenant].eviction;
       |e| == 3 && (e[0] == 'l' || e[0] == 'L') && (e[1] == 'f' || e[1] == 'F') && (e[2] == 'u' || e[2] == 'U')
  }

  lemma LFUIsByName(pol: Policies, tenant: string)
    ensures pol.IsLFU(tenant) <==> WantsLFU(pol, tenant)
  {
    if tenant in pol.policies {
      var e := pol.policies[tenant].eviction;
      var lower := ToLower(e);
      if lower == "lfu" {
        assert lower[0] == 'l' && lower[1] == 'f' && lower[2] == 'u';
      }
      if WantsLFU(pol, tenant) {
        assert lower[0] == 'l' && lower[1] == 'f' && lower[2] == 'u';
        assert lower == "lfu";
      }
    }
  }

  /** The uses of an entry that count for eviction. */
  ghost function UsesOf(es: Entries, pol: Policies, h: Held): int
    requires h in es
  {
    if WantsLFU(pol, h.key.tenant) then es[h].hits else 0
  }

  function Row(h: Held): seq<string> {
    [h.key.tenant, h.key.model, h.key.hashScheme, h.key.adapter, h.key.prefixHash, h.replica]
  }

  /** `v` is worth less than `h`: used less, else seen earlier, else first by name. */
  ghost predicate WorthLess(es: Entries, pol: Policies, v: Held, h: Held)
    requires v in es && h in es
  {
    && UsesOf(es, pol, v) <= UsesOf(es, pol, h)
    && (UsesOf(es, pol, v) == UsesOf(es, pol, h) ==> es[v].lastSeen <= es[h].lastSeen)
    && (UsesOf(es, pol, v) == UsesOf(es, pol, h) && es[v].lastSeen == es[h].lastSeen ==> RowBefore(Row(v), Row(h)))
  }

  lemma KeyLessIsRow(x: PrefixKey, y: PrefixKey, r: string, s: string)
    requires x != y && KeyLess(x, y)
    ensures RowBefore(Row(Held(x, r)), Row(Held(y, s)))
  {
    hide Less, ByteBefore;
    var a, b := Row(Held(x, r)), Row(Held(y, s));
    var k := if x.tenant != y.tenant then 0 else if x.model != y.model then 1 else if x.hashScheme != y.hashScheme then 2
             else if x.adapter != y.adapter then 3 else 4;
    LessIsByteOrder(a[k], b[k]);
    assert a[..k] == b[..k];
  }

  lemma SameKeyIsRow(x: PrefixKey, r: string, s: string)
    requires Less(r, s)
    ensures RowBefore(Row(Held(x, r)), Row(Held(x, s)))
  {
    hide ByteBefore;
    LessIsByteOrder(r, s);
    assert Row(Held(x, r))[..5] == Row(Held(x, s))[..5];
  }

  lemma CapBeforeIsWorthLess(es: Entries, pol: Policies, v: Held, h: Held)
    requires v in es && h in es && CapBefore(es, pol, v, h)
    ensures WorthLess(es, pol, v, h)
  {
    hide Less, WantsLFU, RowBefore;
    LFUIsByName(pol, v.key.tenant);
    LFUIsByName(pol, h.key.tenant);
    if v.key != h.key && KeyLess(v.key, h.key) {
      KeyLessIsRow(v.key, h.key, v.replica, h.replica);
    }
    if v.key == h.key && Less(v.replica, h.replica) {
      SameKeyIsRow(v.key, v.replica, h.replica);
    }
  }

  /** What the cap evicts, in the entries' own terms. */
  lemma CapEvictsLeastWorth(es: Entries, pol: Policies, cfg: Config)
    ensures var left := CapF(es, pol, cfg);
            forall v, h :: v in es && v !in left && h in left && h.key.tenant !in cfg.reserved ==> WorthLess(es, pol, v, h)
  {
    hide WorthLess, CapBefore, CapVictims;
    CapExact(es, pol, cfg);
    CapEffect(es, pol, cfg);
    var held, gone, left := Unreserved(es.Keys, cfg.reserved), CapVictims(es, pol, cfg), CapF(es, pol, cfg);
    forall v, h | v in es && v !in left && h in left && h.key.tenant !in cfg.reserved ensures WorthLess(es, pol, v, h) {
      assert v in gone && h in held - gone;
      CapBeforeIsWorthLess(es, pol, v, h);
    }
  }

  /** Without a frequency policy the cap never keeps an entry older than one it evicts;
      among tenants that have one it never keeps an entry used less. */
  lemma CapKeepsTheBetter(es: Entries, pol: Policies, cfg: Config, v: Held, h: Held)
    requires v in es && v !in CapF(es, pol, cfg) && h in CapF(es, pol, cfg) && h.key.tenant !in cfg.reserved
    ensures h in es
    ensures (forall t :: t in pol.policies ==> !WantsLFU(pol, t)) ==> es[v].lastSeen <= es[h].lastSeen
    ensures WantsLFU(pol, v.key.tenant) && WantsLFU(pol, h.key.tenant) ==> es[v].hits <= es[h].hits
  {
    hide RowBefore, CapVictims;
    CapEffect(es, pol, cfg);
    CapEvictsLeastWorth(es, pol, cfg);
    assert WorthLess(es, pol, v, h);
  }

  /** The victim set is the only one of its size that precedes all survivors, so
      it cannot depend on map iteration order. */
  lemma CapUnique(es: Entries, pol: Policies, cfg: Config, chosen: set<Held>)
    requires chosen <= Unreserved(es.Keys, cfg.reserved) && |chosen| == |CapVictims(es, pol, cfg)|
    requires forall v, h :: v in chosen && h in Unreserved(es.Keys, cfg.reserved) - chosen ==> CapBefore(es, pol, v, h)
    ensures chosen == CapVictims(es, pol, cfg)
  {
    hide StrictOn, InjectiveOn, Unreserved, Lowest, EvictFirst, CapRefs, CapBefore;
    var refs, n := CapRefs(es, pol, cfg.reserved), |Unreserved(es.Keys, cfg.reserved)| - cfg.maxEntries;
    CapRefsMatchHeld(es, pol, cfg.reserved);
    if cfg.maxEntries > 0 {
      assert |chosen| == Excess(n, |refs|) by {
        CapExact(es, pol, cfg);
      }
      EvictFirstStrict(refs);
      CapOrderLifts(es, pol, cfg.reserved, chosen);
      PickedUnique(EvictFirst, refs, HeldOfRef, n, chosen);
    }
  }

  lemma CapOrderLifts(es: Entries, pol: Policies, reserved: set<string>, chosen: set<Held>)
    requires chosen <= Unreserved(es.Keys, reserved)
    requires forall v, h :: v in chosen && h in Unreserved(es.Keys, reserved) - chosen ==> CapBefore(es, pol, v, h)
    ensures forall x, y | x in CapRefs(es, pol, reserved) && y in CapRefs(es, pol, reserved) ::
              HeldOfRef(x) in chosen && HeldOfRef(y) !in chosen ==> EvictFirst(x, y)
  {
    hide EvictFirst;
    forall x, y | x in CapRefs(es, pol, reserved) && y in CapRefs(es, pol, reserved)
                  && HeldOfRef(x) in chosen && HeldOfRef(y) !in chosen
      ensures EvictFirst(x, y)
    {
      assert CapBefore(es, pol, HeldOfRef(x), HeldOfRef(y));
    }
  }

  // ---- The two bounds together ----

  /** The state after the quota step of an ingest. */
  ghost function Fair(written: Entries, tenant: string, pol: Policies): Entries {
    var quota := pol.TenantQuota(tenant);
    if quota.Some? then QuotaF(written, tenant, quota.value) else written
  }

  lemma IngestIsCappedFair(st: State, u: Update, now: int, pol: Policies, cfg: Config)
    ensures IngestF(st, u, now, pol, cfg).entries ==
            CapF(Fair(PutAll(st.entries, Writes(u), u.replica, TimeOf(u.timestamp, now)), u.tenant, pol), pol, cfg)
  {}

  lemma FairOnlyRemoves(written: Entries, tenant: string, pol: Policies)
    ensures Fair(written, tenant, pol).Keys <= written.Keys
    ensures forall h :: h in Fair(written, tenant, pol) ==> Fair(written, tenant, pol)[h] == written[h]
    ensures forall h :: h in written && h.key.tenant != tenant ==> h in Fair(written, tenant, pol)
  {
    var quota := pol.TenantQuota(tenant);
    if quota.Some? && quota.value >= 0 {
      QuotaEffect(written, tenant, quota.value);
    }
  }

  /** Right after an ingest the reporting tenant is within its budget and the
      unreserved total is within the cap, whatever the state before. */
  lemma IngestWithinBounds(st: State, u: Update, now: int, pol: Policies, cfg: Config)
    ensures var after := IngestF(st, u, now, pol, cfg).entries;
            && (pol.TenantQuota(u.tenant).Some? && pol.TenantQuota(u.tenant).value >= 0 ==>
                  |TenantKeys(after.Keys, u.tenant)| <= pol.TenantQuota(u.tenant).value)
            && (cfg.maxEntries > 0 ==> |Unreserved(after.Keys, cfg.reserved)| <= cfg.maxEntries)
  {
    var quota := pol.TenantQuota(u.tenant);
    var written := PutAll(st.entries, Writes(u), u.replica, TimeOf(u.timestamp, now));
    var fair := Fair(written, u.tenant, pol);
    CapEffect(fair, pol, cfg);
    var after := CapF(fair, pol, cfg);
    if quota.Some? && quota.value >= 0 {
      QuotaEffect(written, u.tenant, quota.value);
      assert after.Keys <= fair.Keys;
      assert TenantKeys(after.Keys, u.tenant) <= TenantKeys(fair.Keys, u.tenant);
      SubsetCard(TenantKeys(after.Keys, u.tenant), TenantKeys(fair.Keys, u.tenant));
    }
  }

  /** An ingest can take an entry of another tenant only through the global cap:
      with room under the cap, every entry of every other tenant stays. */
  lemma IngestSparesOthers(st: State, u: Update, now: int, pol: Policies, cfg: Config, h: Held)
    requires h in st.entries && h.key.tenant != u.tenant
    requires var written := PutAll(st.entries, Writes(u), u.replica, TimeOf(u.timestamp, now));
             || cfg.maxEntries <= 0 || h.key.tenant in cfg.reserved
             || |Unreserved(Fair(written, u.tenant, pol).Keys, cfg.reserved)| <= cfg.maxEntries
    ensures h in IngestF(st, u, now, pol, cfg).entries
    ensures IngestF(st, u, now, pol, cfg).entries[h] == st.entries[h]
  {
    hide Fair, CapF, Unreserved, CapVictims;
    var ts := TimeOf(u.timestamp, now);
    var written := PutAll(st.entries, Writes(u), u.replica, ts);
    assert IngestF(st, u, now, pol, cfg).entries == CapF(Fair(written, u.tenant, pol), pol, cfg) by {
      IngestIsCappedFair(st, u, now, pol, cfg);
    }
    forall i | 0 <= i < |Writes(u)| ensures Writes(u)[i].key != h.key {
      WritesInScope(u, |u.prefixes|, i);
    }
    PutAllElsewhere(st.entries, Writes(u), u.replica, ts, h);
    FairOnlyRemoves(written, u.tenant, pol);
    var fair := Fair(written, u.tenant, pol);
    CapExact(fair, pol, cfg);
    CapEffect(fair, pol, cfg);
  }

  lemma {:induction false} PutAllElsewhere(es: Entries, ws: seq<Write>, replica: string, ts: int, h: Held)
    requires h.replica != replica || forall i :: 0 <= i < |ws| ==> ws[i].key != h.key
    ensures h in PutAll(es, ws, replica, ts) <==> h in es
    ensures h in es ==> PutAll(es, ws, replica, ts)[h] == es[h]
  {
    if ws != [] {
      PutAllElsewhere(es, ws[..|ws| - 1], replica, ts, h);
    }
  }

  ghost predicate InScope(u: Update, w: Write) {
    w.key.tenant == u.tenant && w.key.model == u.model && w.key.hashScheme == u.hashScheme
  }

  /** Every write of an update is filed under its tenant, model and scheme. */
  lemma {:induction false} WritesInScope(u: Update, n: nat, i: nat)
    requires n <= |u.prefixes| && i < |FirstWrites(u, n)|
    ensures InScope(u, FirstWrites(u, n)[i])
  {
    var before := FirstWrites(u, n - 1);
    if i < |before| {
      WritesInScope(u, n - 1, i);
    } else {
      RefWritesInScope(u, u.prefixes[n - 1], i - |before|);
    }
  }

  lemma RefWritesInScope(u: Update, p: PrefixRef, i: nat)
    requires i < |RefWrites(u, p)|
    ensures InScope(u, RefWrites(u, p)[i])
  {
    if ChainForm(p) {
      ChainWritesLength(u, p, |p.blockHashes|);
      if i < |p.blockHashes| {
        ChainWriteAt(u, p, |p.blockHashes|, i);
      }
    }
  }

  lemma {:induction false} ChainWriteAt(u: Update, p: PrefixRef, n: nat, i: nat)
    requires i < n <= |p.blockHashes| == |p.blockTokenCounts|
    ensures |ChainWrites(u, p, n)| == n
    ensures ChainWrites(u, p, n)[i] ==
            Write(KeyIn(u, p, p.blockHashes[i]), RunningSum(p.blockTokenCounts, i + 1), NormalizeTier(p.tier))
  {
    ChainWritesLength(u, p, n - 1);
    if i < n - 1 {
      ChainWriteAt(u, p, n - 1, i);
    }
  }

  lemma {:induction false} ChainWritesLength(u: Update, p: PrefixRef, n: nat)
    requires n <= |p.blockHashes| == |p.blockTokenCounts|
    ensures |ChainWrites(u, p, n)| == n
  {
    if n > 0 {
      ChainWritesLength(u, p, n - 1);
    }
  }

  // ---- Without pressure nothing goes ----

  lemma QuotaIdle(es: Entries, tenant: string, budget: int)
    requires budget < 0 || |TenantKeys(es.Keys, tenant)| <= budget
    ensures QuotaF(es, tenant, budget) == es && QuotaVictims(es, tenant, budget) == {}
  {
    if budget >= 0 {
      QuotaExact(es, tenant, budget);
    }
    assert WithKeys(es.Keys, {}) == {};
  }

  lemma CapIdle(es: Entries, pol: Policies, cfg: Config)
    requires cfg.maxEntries <= 0 || |Unreserved(es.Keys, cfg.reserved)| <= cfg.maxEntries
    ensures CapF(es, pol, cfg) == es
  {
    CapExact(es, pol, cfg);
    assert CapVictims(es, pol, cfg) == {};
  }
}
