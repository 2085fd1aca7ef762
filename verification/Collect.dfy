/** The gathering loops of the eviction passes (internal/index/eviction.go:161-175,
    264-280). They walk the nested map in arbitrary order and collect each
    candidate once; the walk order is sorted away afterwards.
 */
module Collect {
  import opened Ordering
  import opened Sorting
  import opened Tally
  import opened Domain
  import opened Policy
  import opened IndexModel
  import opened Eviction
  import opened Bookkeeping

  /** A primary map, its flattening and its entries belong together. */
  ghost predicate Linked(p: Nested, arena: seq<Entry>, objs: map<Held, Pointer>, home: seq<Held>) {
    Flattens(p, objs) && Homed(objs, home) && |home| == |arena|
  }

  lemma LinkedAt(p: Nested, arena: seq<Entry>, objs: map<Held, Pointer>, home: seq<Held>, h: Held)
    requires Linked(p, arena, objs, home)
    ensures h in StoredIn(objs, arena) <==> h.key in p && h.replica in p[h.key]
    ensures h in StoredIn(objs, arena) ==>
              p[h.key][h.replica] < |arena| && StoredIn(objs, arena)[h] == arena[p[h.key][h.replica]]
  {}

  // ---- Cap candidates ----

  lemma CapRefIn(es: Entries, pol: Policies, reserved: set<string>, x: CapRef)
    ensures x in CapRefs(es, pol, reserved) <==>
            && HeldOfRef(x) in es && x.key.tenant !in reserved
            && x == CapRefOf(es, pol, HeldOfRef(x))
  {
    if HeldOfRef(x) in es && x.key.tenant !in reserved {
      assert HeldOfRef(x) in Unreserved(es.Keys, reserved);
    }
  }

  /** Every candidate that satisfies `done`, once each. */
  ghost predicate Gathered<T(!new)>(all: seq<T>, refs: set<T>, done: T -> bool) {
    Distinct(all) && forall x :: x in all <==> x in refs && done(x)
  }

  lemma GatherOne<T(!new)>(all: seq<T>, refs: set<T>, done: T -> bool, x: T, done': T -> bool)
    requires Gathered(all, refs, done) && x in refs && !done(x)
    requires forall y :: y in refs ==> (done'(y) <==> done(y) || y == x)
    ensures Gathered(all + [x], refs, done')
  {}

  lemma Regather<T(!new)>(all: seq<T>, refs: set<T>, done: T -> bool, done': T -> bool)
    requires Gathered(all, refs, done) && forall y :: y in refs ==> (done'(y) <==> done(y))
    ensures Gathered(all, refs, done')
  {}

  ghost function CapDone(keys: set<PrefixKey>): CapRef -> bool {
    (x: CapRef) => x.key !in keys
  }

  ghost function CapDoneIn(keys: set<PrefixKey>, key: PrefixKey, ids: set<string>): CapRef -> bool {
    (x: CapRef) => x.key !in keys && (x.key == key ==> x.replica !in ids)
  }

  method CollectCapRefs(p: Nested, arena: seq<Entry>, pol: Policies, reserved: set<string>,
                        ghost objs: map<Held, Pointer>, ghost home: seq<Held>) returns (all: seq<CapRef>)
    requires Linked(p, arena, objs, home)
    ensures Distinct(all) && Elems(all) == CapRefs(StoredIn(objs, arena), pol, reserved)
  {
    hide Linked, StoredIn, CapRefs;
    ghost var refs := CapRefs(StoredIn(objs, arena), pol, reserved);
    all := [];
    var keys := p.Keys;
    forall x | x in refs ensures x.key in keys && x.key.tenant !in reserved {
      CapRefIn(StoredIn(objs, arena), pol, reserved, x);
      LinkedAt(p, arena, objs, home, HeldOfRef(x));
    }
    while keys != {}
      invariant keys <= p.Keys
      invariant Gathered(all, refs, CapDone(keys))
      decreases keys
    {
      var key :| key in keys;
      if key.tenant !in reserved {
        all := CollectOfKey(p, arena, pol, reserved, key, all, keys, objs, home);
      } else {
        Regather(all, refs, CapDone(keys), CapDone(keys - {key}));
      }
      keys := keys - {key};
    }
  }

  method CollectOfKey(p: Nested, arena: seq<Entry>, pol: Policies, reserved: set<string>, key: PrefixKey,
                      before: seq<CapRef>, ghost keys: set<PrefixKey>,
                      ghost objs: map<Held, Pointer>, ghost home: seq<Held>) returns (all: seq<CapRef>)
    requires Linked(p, arena, objs, home) && key in p && key.tenant !in reserved && key in keys
    requires Gathered(before, CapRefs(StoredIn(objs, arena), pol, reserved), CapDone(keys))
    ensures Gathered(all, CapRefs(StoredIn(objs, arena), pol, reserved), CapDone(keys - {key}))
  {
    hide Linked, StoredIn, CapRefs, Gathered;
    ghost var es := StoredIn(objs, arena);
    ghost var refs := CapRefs(es, pol, reserved);
    all := before;
    var lfu := pol.IsLFU(key.tenant);
    var ids := p[key].Keys;
    ghost var rest := keys - {key};
    forall x | x in refs && x.key == key ensures x.replica in ids {
      CapRefIn(es, pol, reserved, x);
      LinkedAt(p, arena, objs, home, HeldOfRef(x));
    }
    Regather(all, refs, CapDone(keys), CapDoneIn(rest, key, ids));
    while ids != {}
      invariant ids <= p[key].Keys
      invariant Gathered(all, refs, CapDoneIn(rest, key, ids))
      decreases ids
    {
      var id :| id in ids;
      LinkedAt(p, arena, objs, home, Held(key, id));
      var e := arena[p[key][id]];
      var x := CapRef(key, id, if lfu then e.hits else 0, e.lastSeen);
      forall y ensures y in refs && y.key == key && y.replica == id <==> y == x {
        CapRefIn(es, pol, reserved, y);
      }
      GatherOne(all, refs, CapDoneIn(rest, key, ids), x, CapDoneIn(rest, key, ids - {id}));
      all := all + [x];
      ids := ids - {id};
    }
    Regather(all, refs, CapDoneIn(rest, key, {}), CapDone(rest));
  }

  // ---- Quota candidates ----

  lemma NewestIs(ts: set<int>, m: int)
    requires m >= 0 && (m in ts || m == 0) && forall x :: x in ts ==> x <= m
    ensures m == Newest(ts)
  {}

  lemma LastSeensIn(es: Entries, key: PrefixKey, t: int)
    ensures t in LastSeens(es, key) <==> exists h :: h in es && h.key == key && es[h].lastSeen == t
  {}

  /** The freshest replica's last-seen time, not before the zero time. */
  method NewestOf(p: Nested, arena: seq<Entry>, key: PrefixKey, ghost objs: map<Held, Pointer>, ghost home: seq<Held>)
    returns (newest: int)
    requires Linked(p, arena, objs, home) && key in p
    ensures newest == Age(StoredIn(objs, arena), key)
  {
    hide Linked, StoredIn, LastSeens, Newest;
    ghost var es := StoredIn(objs, arena);
    ghost var seen := LastSeens(es, key);
    newest := 0;
    var ids := p[key].Keys;
    forall h | h in es && h.key == key ensures h.replica in ids {
      LinkedAt(p, arena, objs, home, h);
    }
    while ids != {}
      invariant ids <= p[key].Keys && newest >= 0 && (newest == 0 || newest in seen)
      invariant forall h :: h in es && h.key == key && h.replica !in ids ==> es[h].lastSeen <= newest
      decreases ids
    {
      var id :| id in ids;
      ids := ids - {id};
      LinkedAt(p, arena, objs, home, Held(key, id));
      var e := arena[p[key][id]];
      LastSeensIn(es, key, e.lastSeen);
      if e.lastSeen > newest {
        newest := e.lastSeen;
      }
    }
    forall t | t in seen ensures t <= newest {
      LastSeensIn(es, key, t);
    }
    NewestIs(seen, newest);
  }

  ghost function QuotaDone(keys: set<PrefixKey>): QuotaRef -> bool {
    (x: QuotaRef) => x.key !in keys
  }

  lemma QuotaRefIn(es: Entries, tenant: string, x: QuotaRef)
    ensures x in QuotaRefs(es, tenant) <==>
            x.key.tenant == tenant && x.key in PrefixKeys(es.Keys) && x == QuotaRefOf(es, x.key)
  {}

  lemma QuotaStart(p: Nested, arena: seq<Entry>, tenant: string, objs: map<Held, Pointer>, home: seq<Held>)
    requires Linked(p, arena, objs, home)
    ensures PrefixKeys(StoredIn(objs, arena).Keys) == p.Keys
    ensures forall x :: x in QuotaRefs(StoredIn(objs, arena), tenant) ==> x.key in p && x.key.tenant == tenant
    ensures Gathered([], QuotaRefs(StoredIn(objs, arena), tenant), QuotaDone(p.Keys))
  {
    StoredKeys(objs, home, arena);
    FlatKeys(p, objs);
  }

  method CollectQuotaRefs(p: Nested, arena: seq<Entry>, tenant: string,
                          ghost objs: map<Held, Pointer>, ghost home: seq<Held>) returns (all: seq<QuotaRef>)
    requires Linked(p, arena, objs, home)
    ensures Distinct(all) && Elems(all) == QuotaRefs(StoredIn(objs, arena), tenant)
  {
    hide QuotaRefs, Age, PrefixKeys, Linked, StoredIn, Gathered;
    ghost var es := StoredIn(objs, arena);
    ghost var refs := QuotaRefs(es, tenant);
    all := [];
    var keys := p.Keys;
    QuotaStart(p, arena, tenant, objs, home);
    while keys != {}
      invariant keys <= p.Keys
      invariant Gathered(all, refs, QuotaDone(keys))
      decreases keys
    {
      var key :| key in keys;
      if key.tenant == tenant {
        var newest := NewestOf(p, arena, key, objs, home);
        var x := QuotaRef(key, newest);
        forall y ensures y in refs && y.key == key <==> y == x {
          QuotaRefIn(es, tenant, y);
        }
        GatherOne(all, refs, QuotaDone(keys), x, QuotaDone(keys - {key}));
        all := all + [x];
      } else {
        Regather(all, refs, QuotaDone(keys), QuotaDone(keys - {key}));
      }
      keys := keys - {key};
    }
    GatheredAll(all, refs, QuotaDone({}));
  }

  lemma GatheredAll<T(!new)>(all: seq<T>, refs: set<T>, done: T -> bool)
    requires Gathered(all, refs, done) && forall y :: y in refs ==> done(y)
    ensures Distinct(all) && Elems(all) == refs
  {}

  // ---- Cutting the sorted candidates ----

  /** What the first `n` candidates name. */
  ghost function Cut<X(!new), K(!new)>(all: seq<X>, f: X -> K, n: nat): set<K>
    requires n <= |all|
  {
    Image(Elems(all[..n]), f)
  }

  lemma CutNext<X(!new), K(!new)>(all: seq<X>, f: X -> K, n: nat)
    requires n < |all|
    ensures Cut(all, f, n + 1) == Cut(all, f, n) + {f(all[n])}
  {
    assert Elems(all[..n + 1]) == Elems(all[..n]) + {all[n]};
  }

  /** Listed in eviction order, the first `n` candidates are the `n` to evict. */
  lemma CutIsPicked<X(!new), K(!new)>(less: (X, X) -> bool, refs: set<X>, f: X -> K, all: seq<X>, n: nat)
    requires StrictOn(less, refs) && InjectiveOn(refs, f)
    requires Ascending(less, all) && Elems(all) == refs && n <= |all|
    ensures Cut(all, f, n) == Picked(less, refs, f, n) && |Cut(all, f, n)| == n && Cut(all, f, n) <= Image(refs, f)
    ensures |all| == |refs|
  {
    SortedCutIsLowest(less, all, refs, n);
    PickedExact(less, refs, f, n);
    ListingLength(less, all, refs);
  }

  ghost predicate CapListing(all: seq<CapRef>, es: Entries, pol: Policies, reserved: set<string>) {
    Ascending(EvictFirst, all) && Elems(all) == CapRefs(es, pol, reserved)
  }

  lemma CapSorted(all: seq<CapRef>, es: Entries, pol: Policies, reserved: set<string>)
    requires Distinct(all) && Elems(all) == CapRefs(es, pol, reserved)
    ensures CapListing(Sort(EvictFirst, all), es, pol, reserved)
  {
    EvictFirstStrict(Elems(all));
    SortAscending(EvictFirst, all, Elems(all));
  }

  lemma CapCut(all: seq<CapRef>, es: Entries, pol: Policies, reserved: set<string>, n: nat)
    requires CapListing(all, es, pol, reserved) && n <= |all|
    ensures var gone := Cut(all, HeldOfRef, n);
            && |all| == |Unreserved(es.Keys, reserved)|
            && |Unreserved(es.Keys - gone, reserved)| == |all| - n
  {
    hide CapRefs, Cut;
    var gone := Cut(all, HeldOfRef, n);
    EvictFirstStrict(CapRefs(es, pol, reserved));
    CapRefsMatchHeld(es, pol, reserved);
    CutIsPicked(EvictFirst, CapRefs(es, pol, reserved), HeldOfRef, all, n);
    assert Unreserved(es.Keys - gone, reserved) == Unreserved(es.Keys, reserved) - gone;
    SubsetCard(gone, Unreserved(es.Keys, reserved));
  }

  lemma CapCutIsVictims(all: seq<CapRef>, es: Entries, pol: Policies, cfg: Config, n: nat)
    requires CapListing(all, es, pol, cfg.reserved) && cfg.maxEntries > 0
    requires n == if |all| > cfg.maxEntries then |all| - cfg.maxEntries else 0
    ensures Cut(all, HeldOfRef, n) == CapVictims(es, pol, cfg)
  {
    hide CapRefs, Cut;
    var refs := CapRefs(es, pol, cfg.reserved);
    EvictFirstStrict(refs);
    CapRefsMatchHeld(es, pol, cfg.reserved);
    CutIsPicked(EvictFirst, refs, HeldOfRef, all, n);
    if |all| <= cfg.maxEntries {
      assert Lowest(EvictFirst, refs, n) == {} == Lowest(EvictFirst, refs, |refs| - cfg.maxEntries);
    }
  }

  ghost predicate QuotaListing(all: seq<QuotaRef>, es: Entries, tenant: string) {
    Ascending(Older, all) && Elems(all) == QuotaRefs(es, tenant)
  }

  lemma QuotaSorted(all: seq<QuotaRef>, es: Entries, tenant: string)
    requires Distinct(all) && Elems(all) == QuotaRefs(es, tenant)
    ensures QuotaListing(Sort(Older, all), es, tenant)
  {
    OlderStrict(es, tenant);
    SortAscending(Older, all, Elems(all));
  }

  lemma QuotaCut(all: seq<QuotaRef>, es: Entries, tenant: string, n: nat)
    requires QuotaListing(all, es, tenant) && n <= |all|
    ensures var gone := Cut(all, RefKey, n);
            && |all| == |TenantKeys(es.Keys, tenant)|
            && |TenantKeys((es - WithKeys(es.Keys, gone)).Keys, tenant)| == |all| - n
            && |gone| == n
  {
    hide QuotaRefs, Cut, TenantKeys, WithKeys;
    var gone := Cut(all, RefKey, n);
    OlderStrict(es, tenant);
    QuotaRefsMatchKeys(es, tenant);
    CutIsPicked(Older, QuotaRefs(es, tenant), RefKey, all, n);
    KeysLeft(es, gone, tenant);
    SubsetCard(gone, TenantKeys(es.Keys, tenant));
  }

  lemma QuotaCutIsVictims(all: seq<QuotaRef>, es: Entries, tenant: string, budget: int, n: nat)
    requires QuotaListing(all, es, tenant) && budget >= 0
    requires n == if |all| > budget then |all| - budget else 0
    ensures Cut(all, RefKey, n) == QuotaVictims(es, tenant, budget)
  {
    hide QuotaRefs, Cut, TenantKeys;
    var refs := QuotaRefs(es, tenant);
    OlderStrict(es, tenant);
    QuotaRefsMatchKeys(es, tenant);
    CutIsPicked(Older, refs, RefKey, all, n);
    if |all| <= budget {
      assert Lowest(Older, refs, n) == {} == Lowest(Older, refs, |refs| - budget);
    }
  }

  // ---- Progress of the eviction loops ----

  lemma MinusOutside<K(!new), V>(m: map<K, V>, gone: set<K>, k: K)
    ensures k !in m ==> m - (gone + {k}) == m - gone
  {}

  lemma WithKeysStep(objs: map<Held, Pointer>, gone: set<PrefixKey>, key: PrefixKey)
    ensures var left := objs - WithKeys(objs.Keys, gone);
            left - WithKeys(left.Keys, {key}) == objs - WithKeys(objs.Keys, gone + {key})
  {}

  lemma NoneWithKey(r: Rep, reserved: set<string>, key: PrefixKey)
    requires Sound(r, reserved) && key !in r.prefixes
    ensures r.objs - WithKeys(r.objs.Keys, {key}) == r.objs
  {}

  lemma AllWithKey(r: Rep, reserved: set<string>, key: PrefixKey)
    requires Sound(r, reserved) && key in r.prefixes
    ensures forall h :: h in r.objs && h.key == key ==> h.replica in r.prefixes[key]
  {}

  lemma SoundIsLinked(r: Rep, reserved: set<string>)
    requires Sound(r, reserved)
    ensures Linked(r.prefixes, r.arena, r.objs, r.home) && EntriesOf(r).Keys == r.objs.Keys
  {
    StoredKeys(r.objs, r.home, r.arena);
  }

  /** After `n` prefixes are gone the tenant's count is `n` lower. */
  lemma QuotaProgress(r: Rep, reserved: set<string>, objs: map<Held, Pointer>, es: Entries, tenant: string,
                      all: seq<QuotaRef>, n: nat)
    requires Sound(r, reserved) && es.Keys == objs.Keys && QuotaListing(all, es, tenant) && n <= |all|
    requires r.objs == objs - WithKeys(objs.Keys, Cut(all, RefKey, n))
    ensures Get(r.books.byTenant, tenant) == |all| - n
  {
    hide Sound, QuotaListing, TenantKeys, Cut;
    SoundCounts(r, reserved, tenant);
    QuotaCut(all, es, tenant, n);
    assert (es - WithKeys(es.Keys, Cut(all, RefKey, n))).Keys == r.objs.Keys;
  }

  lemma QuotaDoneStored(objs: map<Held, Pointer>, arena: seq<Entry>, tenant: string, budget: int, all: seq<QuotaRef>,
                        n: nat)
    requires StoredIn(objs, arena).Keys == objs.Keys && QuotaListing(all, StoredIn(objs, arena), tenant)
    requires budget >= 0 && |all| - budget == n
    ensures var es := StoredIn(objs, arena);
            && StoredIn(objs - WithKeys(objs.Keys, Cut(all, RefKey, n)), arena) == QuotaF(es, tenant, budget)
            && n == |QuotaVictims(es, tenant, budget)|
  {
    hide QuotaListing, Cut, StoredIn, QuotaVictims, WithKeys;
    var es := StoredIn(objs, arena);
    QuotaCutIsVictims(all, es, tenant, budget, n);
    QuotaCut(all, es, tenant, n);
    StoredErase(objs, arena, WithKeys(objs.Keys, Cut(all, RefKey, n)));
  }

  /** After `n` entries are gone the unreserved total is `n` lower. */
  lemma CapProgress(r: Rep, reserved: set<string>, objs: map<Held, Pointer>, es: Entries, pol: Policies,
                    all: seq<CapRef>, n: nat)
    requires Sound(r, reserved) && es.Keys == objs.Keys && CapListing(all, es, pol, reserved) && n <= |all|
    requires r.objs == objs - Cut(all, HeldOfRef, n)
    ensures r.books.total - r.books.reserved == |all| - n
  {
    hide Sound, CapListing, Unreserved, Cut;
    SoundCounts(r, reserved, "");
    CapCut(all, es, pol, reserved, n);
    assert es.Keys - Cut(all, HeldOfRef, n) == r.objs.Keys;
  }

  lemma CapDoneStored(objs: map<Held, Pointer>, arena: seq<Entry>, pol: Policies, cfg: Config, all: seq<CapRef>, n: nat)
    requires StoredIn(objs, arena).Keys == objs.Keys && CapListing(all, StoredIn(objs, arena), pol, cfg.reserved)
    requires cfg.maxEntries > 0 && |all| - cfg.maxEntries == n
    ensures StoredIn(objs - Cut(all, HeldOfRef, n), arena) == CapF(StoredIn(objs, arena), pol, cfg)
  {
    hide CapListing, Cut, StoredIn, CapVictims;
    CapCutIsVictims(all, StoredIn(objs, arena), pol, cfg, n);
    StoredErase(objs, arena, Cut(all, HeldOfRef, n));
  }

  lemma QuotaFirst(objs: map<Held, Pointer>, all: seq<QuotaRef>)
    ensures objs - WithKeys(objs.Keys, Cut(all, RefKey, 0)) == objs
  {
    assert Elems(all[..0]) == {};
    assert Cut(all, RefKey, 0) == {};
  }

  lemma CapFirst(objs: map<Held, Pointer>, all: seq<CapRef>)
    ensures objs - Cut(all, HeldOfRef, 0) == objs
  {
    assert Elems(all[..0]) == {};
    assert Cut(all, HeldOfRef, 0) == {};
  }

  // ---- Sweeps and events ----

  /** The holds of `key` that are past their time to live. */
  ghost function Stale(es: Entries, key: PrefixKey, now: int, ttl: int): set<Held> {
    set h | h in es && h.key == key && Expired(es[h].lastSeen, now, ttl)
  }

  lemma SweepStored(objs: map<Held, Pointer>, arena: seq<Entry>, st: State, now: int, pol: Policies, cfg: Config,
                    gone: set<Held>)
    requires st.entries == StoredIn(objs, arena)
    requires forall h :: h in gone <==> h in st.entries && Expired(st.entries[h].lastSeen, now, TtlFor(cfg, pol, h.key.tenant))
    ensures StoredIn(objs - gone, arena) == SweepF(st, now, pol, cfg).entries
  {
    hide StoredIn, Expired, TtlFor;
    StoredErase(objs, arena, gone);
  }

  lemma EventStored(objs: map<Held, Pointer>, arena: seq<Entry>, st: State, ev: Event, now: int, gone: set<Held>)
    requires st.entries == StoredIn(objs, arena)
    requires forall h :: h in gone <==> h in st.entries && Erases(ev, h)
    ensures StoredIn(objs - gone, arena) == EventF(st, ev, now).entries
  {
    hide StoredIn, Erases, EventStats;
    StoredErase(objs, arena, gone);
  }
}
