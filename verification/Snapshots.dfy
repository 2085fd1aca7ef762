/** The cluster-wide snapshot (internal/index/snapshot.go): rows per replica and per
    tenant, gathered by walking the maps in arbitrary order and sorted at the
    end. Nothing is lost or counted twice, and nothing reserved shows.
 */
module Snapshots {
  import opened Ordering
  import opened Sorting
  import opened Tally
  import opened Domain
  import opened IndexModel
  import opened Bookkeeping
  import opened Collect
  import opened CacheIndex

  /** Replica names are only unique within a tenant. */
  datatype Owner = Owner(tenant: string, replica: string)

  function OwnerOf(h: Held): Owner { Owner(h.key.tenant, h.replica) }

  function StatsOwner(sk: StatsKey): Owner { Owner(sk.tenant, sk.replica) }

  function OwnerTenant(o: Owner): string { o.tenant }

  datatype ReplicaRow = ReplicaRow(owner: Owner, cacheMemoryBytes: int, hitRate: real, pressure: real, t2HitTokens: int,
                                   t2QueryTokens: int, lastUpdate: int, statsReported: bool, prefixCount: int,
                                   lastEventAt: int)
  datatype TenantRow = TenantRow(tenant: string, indexEntries: int, hitRate: real, hitRateReported: bool)
  datatype Snapshot = Snapshot(replicas: seq<ReplicaRow>, tenants: seq<TenantRow>, totalPrefixes: int)

  ghost function PublicKeys(keys: set<PrefixKey>, reserved: set<string>): set<PrefixKey> {
    set k | k in keys && k.tenant !in reserved
  }

  // ---- The walks ----

  /** `aggregateLocked` */
  method Aggregate(p: Nested, reserved: set<string>) returns (perTenant: map<string, int>, total: int)
    ensures perTenant == Count(PublicKeys(p.Keys, reserved), TenantOf)
    ensures total == |PublicKeys(p.Keys, reserved)|
  {
    hide Count;
    perTenant, total := map[], 0;
    var keys := p.Keys;
    ghost var done: set<PrefixKey> := {};
    CountNone(done, TenantOf);
    while keys != {}
      invariant keys <= p.Keys && done == PublicKeys(p.Keys - keys, reserved)
      invariant perTenant == Count(done, TenantOf) && total == |done|
      decreases keys
    {
      var key :| key in keys;
      keys := keys - {key};
      if key.tenant !in reserved {
        CountInsert(done, TenantOf, key);
        perTenant, total, done := Bump(perTenant, key.tenant), total + 1, done + {key};
      }
    }
    assert p.Keys - {} == p.Keys;
  }

  lemma CountNone<X(!new), K(!new)>(s: set<X>, f: X -> K)
    requires s == {}
    ensures Count(s, f) == map[]
  {
    assert Image(s, f) == {};
  }

  /** `latest` maps each owner among `done` to its most recently seen stats. */
  ghost predicate Latest(latest: map<Owner, StatEntry>, stats: map<StatsKey, StatEntry>, done: set<StatsKey>) {
    && (forall sk :: sk in done ==> sk in stats)
    && (forall o :: o in latest ==> exists sk :: sk in done && StatsOwner(sk) == o && stats[sk] == latest[o])
    && (forall sk :: sk in done ==> StatsOwner(sk) in latest && stats[sk].lastSeen <= latest[StatsOwner(sk)].lastSeen)
  }

  lemma LatestStep(latest: map<Owner, StatEntry>, stats: map<StatsKey, StatEntry>, done: set<StatsKey>, sk: StatsKey)
    requires Latest(latest, stats, done) && sk in stats
    ensures var o := StatsOwner(sk);
            Latest(if o !in latest || stats[sk].lastSeen > latest[o].lastSeen then latest[o := stats[sk]] else latest, stats, done + {sk})
  {
    var o := StatsOwner(sk);
    var latest' := if o !in latest || stats[sk].lastSeen > latest[o].lastSeen then latest[o := stats[sk]] else latest;
    forall x | x in latest' ensures exists s :: s in done + {sk} && StatsOwner(s) == x && stats[s] == latest'[x] {
      if x in latest && latest'[x] == latest[x] {
        var s :| s in done && StatsOwner(s) == x && stats[s] == latest[x];
        assert s in done + {sk};
      } else {
        assert sk in done + {sk};
      }
    }
  }

  ghost function PublicStats(keys: set<StatsKey>, reserved: set<string>): set<StatsKey> {
    set s | s in keys && s.tenant !in reserved
  }

  method LatestStats(stats: map<StatsKey, StatEntry>, reserved: set<string>) returns (latest: map<Owner, StatEntry>)
    ensures Latest(latest, stats, PublicStats(stats.Keys, reserved))
  {
    latest := map[];
    var keys := stats.Keys;
    ghost var done: set<StatsKey> := {};
    while keys != {}
      invariant keys <= stats.Keys && done == PublicStats(stats.Keys - keys, reserved)
      invariant Latest(latest, stats, done)
      decreases keys
    {
      hide Latest;
      var sk :| sk in keys;
      keys := keys - {sk};
      if sk.tenant !in reserved {
        LatestStep(latest, stats, done, sk);
        var o := StatsOwner(sk);
        if o !in latest || stats[sk].lastSeen > latest[o].lastSeen {
          latest := latest[o := stats[sk]];
        }
        done := done + {sk};
      }
    }
    assert stats.Keys - {} == stats.Keys;
  }

  /** `events` maps each owner among `done` to its newest entry, not before the
      zero time. */
  ghost predicate NewestBy(events: map<Owner, int>, es: Entries, done: set<Held>) {
    && (forall h :: h in done ==> h in es && OwnerOf(h) in events && es[h].lastSeen <= events[OwnerOf(h)])
    && (forall o :: o in events ==> events[o] >= 0 && exists h :: h in done && OwnerOf(h) == o && (events[o] == es[h].lastSeen || events[o] == 0))
  }

  lemma NewestStep(events: map<Owner, int>, es: Entries, done: set<Held>, h: Held)
    requires NewestBy(events, es, done) && h in es
    ensures var seen, was := es[h].lastSeen, Get(events, OwnerOf(h));
            NewestBy(events[OwnerOf(h) := if seen > was then seen else was], es, done + {h})
  {
    var o := OwnerOf(h);
    var was := Get(events, o);
    var events' := events[o := if es[h].lastSeen > was then es[h].lastSeen else was];
    forall x | x in events' ensures exists g :: g in done + {h} && OwnerOf(g) == x && (events'[x] == es[g].lastSeen || events'[x] == 0) {
      if x in events && events'[x] == events[x] {
        var g :| g in done && OwnerOf(g) == x && (events[x] == es[g].lastSeen || events[x] == 0);
        assert g in done + {h};
      } else {
        assert h in done + {h};
      }
    }
  }

  /** The holds of some keys, reserved ones left out. */
  ghost function HeldUnder(held: set<Held>, keys: set<PrefixKey>, reserved: set<string>): set<Held> {
    set h | h in held && h.key in keys && h.key.tenant !in reserved
  }

  /** Counts and newest entries per owner. */
  method CountHolds(p: Nested, arena: seq<Entry>, reserved: set<string>, ghost objs: map<Held, Pointer>,
                    ghost home: seq<Held>)
      returns (counts: map<Owner, int>, events: map<Owner, int>)
    requires Linked(p, arena, objs, home)
    ensures counts == Count(Unreserved(StoredIn(objs, arena).Keys, reserved), OwnerOf)
    ensures NewestBy(events, StoredIn(objs, arena), Unreserved(StoredIn(objs, arena).Keys, reserved))
  {
    hide Linked, StoredIn, Count, NewestBy;
    ghost var es := StoredIn(objs, arena);
    counts, events := map[], map[];
    var keys := p.Keys;
    ghost var done: set<Held> := {};
    CountNone(done, OwnerOf);
    NewestNone(es);
    while keys != {}
      invariant keys <= p.Keys && done == HeldUnder(es.Keys, p.Keys - keys, reserved)
      invariant counts == Count(done, OwnerOf) && NewestBy(events, es, done)
      decreases keys
    {
      var key :| key in keys;
      ghost var seen := p.Keys - keys;
      keys := keys - {key};
      if key.tenant !in reserved {
        counts, events := CountKey(p, arena, reserved, key, counts, events, done, objs, home);
        done := done + HeldUnder(es.Keys, {key}, reserved);
      }
      assert p.Keys - keys == seen + {key};
    }
    assert done == Unreserved(es.Keys, reserved) by {
      forall h | h in es ensures h.key in p {
        LinkedAt(p, arena, objs, home, h);
      }
    }
  }

  lemma NewestNone(es: Entries)
    ensures NewestBy(map[], es, {})
  {}

  method CountKey(p: Nested, arena: seq<Entry>, reserved: set<string>, key: PrefixKey, counts0: map<Owner, int>,
                  events0: map<Owner, int>, ghost done0: set<Held>, ghost objs: map<Held, Pointer>, ghost home: seq<Held>)
      returns (counts: map<Owner, int>, events: map<Owner, int>)
    requires Linked(p, arena, objs, home) && key in p && key.tenant !in reserved
    requires counts0 == Count(done0, OwnerOf) && NewestBy(events0, StoredIn(objs, arena), done0)
    requires forall h :: h in done0 ==> h.key != key
    ensures var done := done0 + HeldUnder(StoredIn(objs, arena).Keys, {key}, reserved);
            counts == Count(done, OwnerOf) && NewestBy(events, StoredIn(objs, arena), done)
  {
    hide Linked, StoredIn, Count, NewestBy;
    ghost var es := StoredIn(objs, arena);
    counts, events := counts0, events0;
    var ids := p[key].Keys;
    ghost var mine: set<Held> := {};
    assert done0 + mine == done0;
    forall h ensures h in es && h.key == key <==> h.key == key && h.replica in p[key] {
      LinkedAt(p, arena, objs, home, h);
    }
    while ids != {}
      invariant ids <= p[key].Keys
      invariant forall h :: h in mine <==> h.key == key && h.replica in p[key] && h.replica !in ids
      invariant counts == Count(done0 + mine, OwnerOf) && NewestBy(events, es, done0 + mine)
      decreases ids
    {
      var id :| id in ids;
      ids := ids - {id};
      ghost var h := Held(key, id);
      LinkedAt(p, arena, objs, home, h);
      var e, o := arena[p[key][id]], Owner(key.tenant, id);
      CountInsert(done0 + mine, OwnerOf, h);
      NewestStep(events, es, done0 + mine, h);
      assert done0 + mine + {h} == done0 + (mine + {h});
      var was := Get(events, o);
      counts, events := Bump(counts, o), events[o := if e.lastSeen > was then e.lastSeen else was];
      mine := mine + {h};
    }
    assert mine == HeldUnder(es.Keys, {key}, reserved);
  }

  // ---- Rows ----

  predicate OwnerLess(x: Owner, y: Owner) {
    if x.tenant != y.tenant then Less(x.tenant, y.tenant) else Less(x.replica, y.replica)
  }

  predicate RowLess(x: ReplicaRow, y: ReplicaRow) { OwnerLess(x.owner, y.owner) }

  predicate TenantLess(x: TenantRow, y: TenantRow) { Less(x.tenant, y.tenant) }

  lemma OwnerOrder(x: Owner, y: Owner, z: Owner)
    ensures !OwnerLess(x, x)
    ensures x == y || OwnerLess(x, y) || OwnerLess(y, x)
    ensures OwnerLess(x, y) && OwnerLess(y, z) ==> OwnerLess(x, z)
  {
    hide Less;
    TextOrder(x.tenant, y.tenant, z.tenant);
    TextOrder(x.replica, y.replica, z.replica);
    TextOrder(y.tenant, x.tenant, z.tenant);
  }

  lemma TextOrder(x: string, y: string, z: string)
    ensures !Less(x, x)
    ensures x == y || Less(x, y) || Less(y, x)
    ensures Less(x, y) && Less(y, z) ==> Less(x, z)
  {
    LessIrreflexive(x);
    LessTotal(x, y);
    if Less(x, y) && Less(y, z) {
      LessTransitive(x, y, z);
    }
  }

  /** The row of one owner. */
  function RowOf(o: Owner, latest: map<Owner, StatEntry>, counts: map<Owner, int>, events: map<Owner, int>): ReplicaRow {
    var blank := ReplicaRow(o, 0, 0.0, 0.0, 0, 0, 0, false, Get(counts, o), Get(events, o));
    if o in latest then
      var s := latest[o].stats;
      blank.(cacheMemoryBytes := s.cacheMemoryBytes, hitRate := s.hitRate, pressure := s.pressure,
      t2HitTokens := s.t2HitTokens,
             t2QueryTokens := s.t2QueryTokens, lastUpdate := latest[o].lastSeen, statsReported := true)
    else blank
  }

  /** One row per owner seen in stats or in prefixes, in owner order. */
  method ReplicaRows(latest: map<Owner, StatEntry>, counts: map<Owner, int>,
                     events: map<Owner, int>) returns (rows: seq<ReplicaRow>)
    ensures Ascending(RowLess, rows)
    ensures forall i :: 0 <= i < |rows| ==> rows[i] == RowOf(rows[i].owner, latest, counts, events)
    ensures OwnersOf(rows) == latest.Keys + counts.Keys
  {
    hide OwnerLess, RowOf;
    rows := [];
    var seen := latest.Keys + counts.Keys;
    var rest := seen;
    while rest != {}
      invariant rest <= seen && Distinct(rows)
      invariant forall x :: x in rows <==> x.owner in seen - rest && x == RowOf(x.owner, latest, counts, events)
      decreases rest
    {
      var o :| o in rest;
      rest := rest - {o};
      RowOwner(o, latest, counts, events);
      rows := rows + [RowOf(o, latest, counts, events)];
    }
    ghost var before := Elems(rows);
    assert StrictOn(RowLess, before) by {
      forall x, y, z | x in before && y in before && z in before
        ensures !RowLess(x, x)
        ensures x != y ==> RowLess(x, y) || RowLess(y, x)
        ensures RowLess(x, y) && RowLess(y, z) ==> RowLess(x, z)
      {
        OwnerOrder(x.owner, y.owner, z.owner);
      }
    }
    SortAscending(RowLess, rows, before);
    rows := Sort(RowLess, rows);
    forall i | 0 <= i < |rows| ensures rows[i].owner in seen && rows[i] == RowOf(rows[i].owner, latest, counts, events) {
      assert rows[i] in Elems(rows);
    }
    forall o | o in seen ensures o in OwnersOf(rows) {
      RowOwner(o, latest, counts, events);
      assert RowOf(o, latest, counts, events) in Elems(rows);
    }
  }

  lemma RowOwner(o: Owner, latest: map<Owner, StatEntry>, counts: map<Owner, int>, events: map<Owner, int>)
    ensures RowOf(o, latest, counts, events).owner == o
  {}

  ghost function OwnersOf(rows: seq<ReplicaRow>): set<Owner> {
    set i | 0 <= i < |rows| :: rows[i].owner
  }

  ghost function TenantsOf(rows: seq<TenantRow>): set<string> {
    set i | 0 <= i < |rows| :: rows[i].tenant
  }

  // ---- The tenants' mean hit rate ----

  /** The sum of the latest hit rates of some owners. */
  ghost function HitSum(latest: map<Owner, StatEntry>, owners: set<Owner>): real {
    if !(exists o :: o in owners) then 0.0
    else
      var o :| o in owners;
      HitOf(latest, o) + HitSum(latest, owners - {o})
  }

  function HitOf(latest: map<Owner, StatEntry>, o: Owner): real {
    if o in latest then latest[o].stats.hitRate else 0.0
  }

  lemma {:induction false} HitSumAdd(latest: map<Owner, StatEntry>, owners: set<Owner>, o: Owner)
    requires o !in owners
    ensures HitSum(latest, owners + {o}) == HitSum(latest, owners) + HitOf(latest, o)
    decreases |owners|
  {
    hide HitOf;
    var all := owners + {o};
    assert o in all;
    var c :| c in all && HitSum(latest, all) == HitOf(latest, c) + HitSum(latest, all - {c});
    if c == o {
      assert all - {c} == owners;
    } else {
      assert all - {c} == (owners - {c}) + {o};
      HitSumAdd(latest, owners - {c}, o);
      assert (owners - {c}) + {c} == owners;
      HitSumAdd(latest, owners - {c}, c);
    }
  }

  /** The hit rates and the number of reporting owners of every tenant among `done`. */
  ghost predicate HitsBy(sums: map<string, real>, ns: map<string, int>, latest: map<Owner, StatEntry>, done: set<Owner>) {
    && ns == Count(done, OwnerTenant) && sums.Keys == ns.Keys
    && (forall t :: t in sums ==> sums[t] == HitSum(latest, Fiber(done, OwnerTenant, t)))
  }

  lemma HitsNone(latest: map<Owner, StatEntry>)
    ensures HitsBy(map[], map[], latest, {})
  {
    CountNone({}, OwnerTenant);
  }

  lemma HitsStep(sums: map<string, real>, ns: map<string, int>, latest: map<Owner, StatEntry>, done: set<Owner>, o: Owner)
    requires HitsBy(sums, ns, latest, done) && o !in done && o in latest
    ensures HitsBy(sums[o.tenant := (if o.tenant in sums then sums[o.tenant] else 0.0) + latest[o].stats.hitRate],
                   Bump(ns, o.tenant), latest, done + {o})
  {
    hide Count, HitSum, Fiber;
    CountInsert(done, OwnerTenant, o);
    var sums' := sums[o.tenant := (if o.tenant in sums then sums[o.tenant] else 0.0) + latest[o].stats.hitRate];
    forall t | t in sums' ensures sums'[t] == HitSum(latest, Fiber(done + {o}, OwnerTenant, t)) {
      FiberGrows(done, o, t);
      CountAt(done, OwnerTenant, t);
      NoHits(latest);
      if t == o.tenant {
        HitSumAdd(latest, Fiber(done, OwnerTenant, t), o);
      }
    }
  }

  lemma NoHits(latest: map<Owner, StatEntry>)
    ensures HitSum(latest, {}) == 0.0
  {}

  lemma FiberGrows(done: set<Owner>, o: Owner, t: string)
    requires o !in done
    ensures o !in Fiber(done, OwnerTenant, t)
    ensures Fiber(done + {o}, OwnerTenant, t) ==
            if t == o.tenant then Fiber(done, OwnerTenant, t) + {o} else Fiber(done, OwnerTenant, t)
  {}

  method TenantHits(latest: map<Owner, StatEntry>) returns (sums: map<string, real>, ns: map<string, int>)
    ensures HitsBy(sums, ns, latest, latest.Keys)
  {
    hide HitsBy;
    sums, ns := map[], map[];
    HitsNone(latest);
    var rest := latest.Keys;
    ghost var done: set<Owner> := {};
    while rest != {}
      invariant rest <= latest.Keys && done == latest.Keys - rest && HitsBy(sums, ns, latest, done)
      decreases rest
    {
      var o :| o in rest;
      rest := rest - {o};
      HitsStep(sums, ns, latest, done, o);
      var sum := if o.tenant in sums then sums[o.tenant] else 0.0;
      sums, ns := sums[o.tenant := sum + latest[o].stats.hitRate], Bump(ns, o.tenant);
      done := done + {o};
    }
    assert done == latest.Keys;
  }

  /** The row of one tenant. */
  function TenantRowOf(t: string, perTenant: map<string, int>, sums: map<string, real>, ns: map<string, int>): TenantRow {
    var n := Get(ns, t);
    TenantRow(t, Get(perTenant, t), if n > 0 && t in sums then sums[t] / n as real else 0.0, n > 0)
  }

  lemma TenantRowName(t: string, perTenant: map<string, int>, sums: map<string, real>, ns: map<string, int>)
    ensures TenantRowOf(t, perTenant, sums, ns).tenant == t
  {}

  lemma TenantOrder(s: set<TenantRow>)
    requires forall x, y :: x in s && y in s && x != y ==> x.tenant != y.tenant
    ensures StrictOn(TenantLess, s)
  {
    hide Less;
    forall x, y, z | x in s && y in s && z in s
      ensures !TenantLess(x, x)
      ensures x != y ==> TenantLess(x, y) || TenantLess(y, x)
      ensures TenantLess(x, y) && TenantLess(y, z) ==> TenantLess(x, z)
    {
      TextOrder(x.tenant, y.tenant, z.tenant);
    }
  }

  /** One row per tenant with stats or with entries, in tenant order. */
  method TenantRows(perTenant: map<string, int>, sums: map<string, real>, ns: map<string, int>) returns (rows: seq<TenantRow>)
    ensures Ascending(TenantLess, rows)
    ensures forall i :: 0 <= i < |rows| ==> rows[i] == TenantRowOf(rows[i].tenant, perTenant, sums, ns)
    ensures TenantsOf(rows) == ns.Keys + perTenant.Keys
  {
    hide TenantRowOf, TenantLess, StrictOn, Ascending;
    rows := [];
    var seen := ns.Keys + perTenant.Keys;
    var rest := seen;
    while rest != {}
      invariant rest <= seen && Distinct(rows)
      invariant forall x :: x in rows <==> x.tenant in seen - rest && x == TenantRowOf(x.tenant, perTenant, sums, ns)
      decreases rest
    {
      var t :| t in rest;
      rest := rest - {t};
      TenantRowName(t, perTenant, sums, ns);
      rows := rows + [TenantRowOf(t, perTenant, sums, ns)];
    }
    TenantOrder(Elems(rows));
    SortAscending(TenantLess, rows, Elems(rows));
    SameMembers(Sort(TenantLess, rows), rows);
    rows := Sort(TenantLess, rows);
    TenantsListed(rows, seen, perTenant, sums, ns);
  }

  lemma TenantsListed(rows: seq<TenantRow>, seen: set<string>, perTenant: map<string, int>, sums: map<string, real>, ns: map<string, int>)
    requires forall x :: x in rows <==> x.tenant in seen && x == TenantRowOf(x.tenant, perTenant, sums, ns)
    ensures forall i :: 0 <= i < |rows| ==> rows[i] == TenantRowOf(rows[i].tenant, perTenant, sums, ns)
    ensures TenantsOf(rows) == seen
  {
    hide TenantRowOf;
    forall i | 0 <= i < |rows| ensures rows[i].tenant in seen && rows[i] == TenantRowOf(rows[i].tenant, perTenant, sums, ns) {
      assert rows[i] in rows;
    }
    forall t | t in seen ensures t in TenantsOf(rows) {
      TenantRowName(t, perTenant, sums, ns);
      var i :| 0 <= i < |rows| && rows[i] == TenantRowOf(t, perTenant, sums, ns);
      assert rows[i].tenant == t;
    }
  }

  // ---- Conservation ----

  ghost function SumPrefixCounts(rows: seq<ReplicaRow>): int {
    if rows == [] then 0 else SumPrefixCounts(rows[..|rows| - 1]) + rows[|rows| - 1].prefixCount
  }

  ghost function SumIndexEntries(rows: seq<TenantRow>): int {
    if rows == [] then 0 else SumIndexEntries(rows[..|rows| - 1]) + rows[|rows| - 1].indexEntries
  }

  /** Taking `k` out of a map takes its value out of the total. */
  lemma TotalWithout<K(!new)>(m: map<K, int>, k: K)
    ensures Total(m) == Get(m, k) + Total(m - {k})
  {
    if k in m {
      TotalSplit(m, k);
    } else {
      assert m - {k} == m;
    }
  }

  /** Rows with distinct owners that cover the counts add up to their total. */
  lemma {:induction false} PrefixCountsTotal(rows: seq<ReplicaRow>, counts: map<Owner, int>)
    requires forall i, j :: 0 <= i < j < |rows| ==> rows[i].owner != rows[j].owner
    requires forall i :: 0 <= i < |rows| ==> rows[i].prefixCount == Get(counts, rows[i].owner)
    requires counts.Keys <= OwnersOf(rows)
    ensures SumPrefixCounts(rows) == Total(counts)
  {
    if rows == [] {
      assert counts == map[];
    } else {
      var init, last := rows[..|rows| - 1], rows[|rows| - 1];
      TotalWithout(counts, last.owner);
      assert (counts - {last.owner}).Keys <= OwnersOf(init) by {
        forall o | o in counts && o != last.owner ensures o in OwnersOf(init) {
          var i :| 0 <= i < |rows| && rows[i].owner == o;
          assert init[i].owner == o;
        }
      }
      PrefixCountsTotal(init, counts - {last.owner});
    }
  }

  lemma {:induction false} IndexEntriesTotal(rows: seq<TenantRow>, counts: map<string, int>)
    requires forall i, j :: 0 <= i < j < |rows| ==> rows[i].tenant != rows[j].tenant
    requires forall i :: 0 <= i < |rows| ==> rows[i].indexEntries == Get(counts, rows[i].tenant)
    requires counts.Keys <= TenantsOf(rows)
    ensures SumIndexEntries(rows) == Total(counts)
  {
    if rows == [] {
      assert counts == map[];
    } else {
      var init, last := rows[..|rows| - 1], rows[|rows| - 1];
      TotalWithout(counts, last.tenant);
      assert (counts - {last.tenant}).Keys <= TenantsOf(init) by {
        forall t | t in counts && t != last.tenant ensures t in TenantsOf(init) {
          var i :| 0 <= i < |rows| && rows[i].tenant == t;
          assert init[i].tenant == t;
        }
      }
      IndexEntriesTotal(init, counts - {last.tenant});
    }
  }

  // ---- The snapshot ----

  ghost predicate Reports(stats: map<StatsKey, StatEntry>, sk: StatsKey, o: Owner) {
    sk in stats && sk.tenant == o.tenant && sk.replica == o.replica
  }

  /** The row carries the values of one stats entry. */
  ghost predicate Carries(row: ReplicaRow, s: StatEntry) {
    && row.cacheMemoryBytes == s.stats.cacheMemoryBytes && row.hitRate == s.stats.hitRate && row.pressure == s.stats.pressure
    && row.t2HitTokens == s.stats.t2HitTokens && row.t2QueryTokens == s.stats.t2QueryTokens && row.lastUpdate == s.lastSeen
  }

  predicate Owns(o: Owner, h: Held) {
    h.key.tenant == o.tenant && h.replica == o.replica
  }

  /** The number of holds of the owner, and the newest one. */
  ghost predicate HoldsFit(row: ReplicaRow, es: Entries) {
    && row.prefixCount == |set h | h in es && Owns(row.owner, h)|
    && (forall h :: h in es && Owns(row.owner, h) ==> es[h].lastSeen <= row.lastEventAt)
    && row.lastEventAt >= 0
    && (row.lastEventAt > 0 ==> exists h :: h in es && Owns(row.owner, h) && es[h].lastSeen == row.lastEventAt)
  }

  /** The most recently seen stats of the owner. */
  ghost predicate StatsFit(row: ReplicaRow, stats: map<StatsKey, StatEntry>) {
    && (row.statsReported <==> exists sk :: Reports(stats, sk, row.owner))
    && (forall sk :: Reports(stats, sk, row.owner) ==> stats[sk].lastSeen <= row.lastUpdate)
    && (row.statsReported ==> exists sk :: Reports(stats, sk, row.owner) && Carries(row, stats[sk]))
  }

  /** A row is what scanning everything the owner stored and reported gives. */
  ghost predicate RowFits(row: ReplicaRow, es: Entries, stats: map<StatsKey, StatEntry>) {
    HoldsFit(row, es) && StatsFit(row, stats)
  }

  lemma HoldsOfOwner(es: Entries, reserved: set<string>, o: Owner)
    requires o.tenant !in reserved
    ensures Fiber(Unreserved(es.Keys, reserved), OwnerOf, o) == set h | h in es && Owns(o, h)
  {}

  lemma RowOfFits(o: Owner, latest: map<Owner, StatEntry>, counts: map<Owner, int>, events: map<Owner, int>,
                  es: Entries, stats: map<StatsKey, StatEntry>, reserved: set<string>)
    requires o.tenant !in reserved
    requires Latest(latest, stats, PublicStats(stats.Keys, reserved))
    requires counts == Count(Unreserved(es.Keys, reserved), OwnerOf)
    requires NewestBy(events, es, Unreserved(es.Keys, reserved))
    ensures RowFits(RowOf(o, latest, counts, events), es, stats)
  {
    RowHoldsFit(o, latest, counts, events, es, reserved);
    RowStatsFit(o, latest, counts, events, stats, reserved);
  }

  lemma RowHoldsFit(o: Owner, latest: map<Owner, StatEntry>, counts: map<Owner, int>, events: map<Owner, int>, es: Entries,
                    reserved: set<string>)
    requires o.tenant !in reserved
    requires counts == Count(Unreserved(es.Keys, reserved), OwnerOf)
    requires NewestBy(events, es, Unreserved(es.Keys, reserved))
    ensures HoldsFit(RowOf(o, latest, counts, events), es)
  {
    hide Count, Fiber;
    var row := RowOf(o, latest, counts, events);
    CountAt(Unreserved(es.Keys, reserved), OwnerOf, o);
    HoldsOfOwner(es, reserved, o);
    forall h | h in es && Owns(o, h) ensures es[h].lastSeen <= row.lastEventAt {
      assert h in Unreserved(es.Keys, reserved);
    }
  }

  lemma RowStatsFit(o: Owner, latest: map<Owner, StatEntry>, counts: map<Owner, int>, events: map<Owner, int>,
                    stats: map<StatsKey, StatEntry>, reserved: set<string>)
    requires o.tenant !in reserved && Latest(latest, stats, PublicStats(stats.Keys, reserved))
    ensures StatsFit(RowOf(o, latest, counts, events), stats)
  {
    var row := RowOf(o, latest, counts, events);
    forall sk | Reports(stats, sk, o) ensures o in latest && stats[sk].lastSeen <= row.lastUpdate {
      assert sk in PublicStats(stats.Keys, reserved);
    }
    if o in latest {
      var sk :| sk in PublicStats(stats.Keys, reserved) && StatsOwner(sk) == o && stats[sk] == latest[o];
      assert Reports(stats, sk, o) && Carries(row, stats[sk]);
    }
  }

  /** Who has a row: every public owner of a hold or of stats. */
  ghost predicate Known(es: Entries, stats: map<StatsKey, StatEntry>, reserved: set<string>, o: Owner) {
    o.tenant !in reserved && ((exists h :: h in es && Owns(o, h)) || exists sk :: Reports(stats, sk, o))
  }

  lemma SeenIsKnown(latest: map<Owner, StatEntry>, counts: map<Owner, int>, es: Entries, stats: map<StatsKey, StatEntry>,
                    reserved: set<string>, o: Owner)
    requires Latest(latest, stats, PublicStats(stats.Keys, reserved))
    requires counts == Count(Unreserved(es.Keys, reserved), OwnerOf)
    ensures o in latest.Keys + counts.Keys <==> Known(es, stats, reserved, o)
  {
    if o in latest {
      var sk :| sk in PublicStats(stats.Keys, reserved) && StatsOwner(sk) == o;
      assert Reports(stats, sk, o);
    }
    if o.tenant !in reserved {
      if h :| h in es && Owns(o, h) {
        assert h in Unreserved(es.Keys, reserved);
      }
      if sk :| Reports(stats, sk, o) {
        assert sk in PublicStats(stats.Keys, reserved);
      }
    }
  }

  lemma AscendingOwners(rows: seq<ReplicaRow>)
    requires Ascending(RowLess, rows)
    ensures forall i, j :: 0 <= i < j < |rows| ==> rows[i].owner != rows[j].owner
  {
    forall i, j | 0 <= i < j < |rows| ensures rows[i].owner != rows[j].owner {
      assert RowLess(rows[i], rows[j]);
      OwnerOrder(rows[i].owner, rows[i].owner, rows[i].owner);
    }
  }

  lemma AscendingTenants(rows: seq<TenantRow>)
    requires Ascending(TenantLess, rows)
    ensures forall i, j :: 0 <= i < j < |rows| ==> rows[i].tenant != rows[j].tenant
  {
    forall i, j | 0 <= i < j < |rows| ensures rows[i].tenant != rows[j].tenant {
      assert TenantLess(rows[i], rows[j]);
      LessIrreflexive(rows[i].tenant);
    }
  }

  /** The walk over prefixes agrees with the counter kept beside them. */
  lemma PublicTenantCount(r: Rep, reserved: set<string>, tenant: string)
    requires Sound(r, reserved)
    ensures Get(Count(PublicKeys(r.prefixes.Keys, reserved), TenantOf), tenant) ==
            if tenant in reserved then 0 else Get(r.books.byTenant, tenant)
    ensures r.books.total - r.books.reserved == |Unreserved(EntriesOf(r).Keys, reserved)|
  {
    assert PrefixKeys(r.objs.Keys) == r.prefixes.Keys by {
      hide Homed, Credited, Group, Accounts;
      FlatKeys(r.prefixes, r.objs);
    }
    hide Sound, EntriesOf, Count, TenantKeys, Unreserved, PublicKeys;
    SoundCounts(r, reserved, tenant);
    PublicFiber(r.objs.Keys, reserved, tenant);
    CountAt(PublicKeys(r.prefixes.Keys, reserved), TenantOf, tenant);
  }

  lemma PublicFiber(held: set<Held>, reserved: set<string>, tenant: string)
    ensures Fiber(PublicKeys(PrefixKeys(held), reserved), TenantOf, tenant) ==
            if tenant in reserved then {} else TenantKeys(held, tenant)
  {}

  /** Over the replica rows of a tenant with reported stats: the sum of their hit
      rates, and their number. */
  ghost function Rates(rows: seq<ReplicaRow>, tenant: string): real {
    if rows == [] then 0.0
    else
      var last := rows[|rows| - 1];
      Rates(rows[..|rows| - 1], tenant) + if last.owner.tenant == tenant && last.statsReported then last.hitRate else 0.0
  }

  ghost function Reporting(rows: seq<ReplicaRow>, tenant: string): nat {
    if rows == [] then 0
    else
      var last := rows[|rows| - 1];
      Reporting(rows[..|rows| - 1], tenant) + if last.owner.tenant == tenant && last.statsReported then 1 else 0
  }

  ghost function ReportingOwners(rows: seq<ReplicaRow>, latest: map<Owner, StatEntry>, tenant: string): set<Owner> {
    Fiber(OwnersOf(rows) * latest.Keys, OwnerTenant, tenant)
  }

  lemma {:induction false} RatesTotal(rows: seq<ReplicaRow>, latest: map<Owner, StatEntry>, tenant: string)
    requires forall i, j :: 0 <= i < j < |rows| ==> rows[i].owner != rows[j].owner
    requires forall i :: 0 <= i < |rows| ==>
               (rows[i].statsReported <==> rows[i].owner in latest) && (rows[i].statsReported ==> rows[i].hitRate == HitOf(latest, rows[i].owner))
    ensures Rates(rows, tenant) == HitSum(latest, ReportingOwners(rows, latest, tenant))
    ensures Reporting(rows, tenant) == |ReportingOwners(rows, latest, tenant)|
  {
    hide HitSum, HitOf;
    if rows == [] {
      NoHits(latest);
      assert ReportingOwners(rows, latest, tenant) == {};
    } else {
      var init, last := rows[..|rows| - 1], rows[|rows| - 1];
      RatesTotal(init, latest, tenant);
      ReportingGrows(init, last, latest, tenant);
      assert rows == init + [last];
      hide ReportingOwners;
      if last.owner.tenant == tenant && last.statsReported {
        HitSumAdd(latest, ReportingOwners(init, latest, tenant), last.owner);
      }
    }
  }

  lemma ReportingGrows(init: seq<ReplicaRow>, last: ReplicaRow, latest: map<Owner, StatEntry>, tenant: string)
    requires forall i :: 0 <= i < |init| ==> init[i].owner != last.owner
    ensures last.owner !in ReportingOwners(init, latest, tenant)
    ensures ReportingOwners(init + [last], latest, tenant) ==
            if last.owner.tenant == tenant && last.owner in latest then ReportingOwners(init, latest, tenant) + {last.owner}
            else ReportingOwners(init, latest, tenant)
  {
    var rows := init + [last];
    assert OwnersOf(rows) == OwnersOf(init) + {last.owner} by {
      forall o | o in OwnersOf(init) ensures o in OwnersOf(rows) {
        var i :| 0 <= i < |init| && init[i].owner == o;
        assert rows[i].owner == o;
      }
      assert rows[|init|].owner == last.owner;
    }
  }

  /** A tenant's rate is the mean over its replica rows with reported stats. */
  ghost predicate MeanFits(row: TenantRow, rows: seq<ReplicaRow>) {
    var n := Reporting(rows, row.tenant);
    && (row.hitRateReported <==> n > 0)
    && row.hitRate == if n > 0 then Rates(rows, row.tenant) / n as real else 0.0
  }

  lemma MeanOfRows(row: TenantRow, rows: seq<ReplicaRow>, latest: map<Owner, StatEntry>, counts: map<Owner, int>, events: map<Owner, int>,
                   perTenant: map<string, int>, sums: map<string, real>, ns: map<string, int>)
    requires Ascending(RowLess, rows) && OwnersOf(rows) == latest.Keys + counts.Keys
    requires forall i :: 0 <= i < |rows| ==> rows[i] == RowOf(rows[i].owner, latest, counts, events)
    requires HitsBy(sums, ns, latest, latest.Keys) && row == TenantRowOf(row.tenant, perTenant, sums, ns)
    ensures MeanFits(row, rows)
  {
    hide HitSum, RowLess, Count;
    AscendingOwners(rows);
    RatesTotal(rows, latest, row.tenant);
    assert OwnersOf(rows) * latest.Keys == latest.Keys;
    CountAt(latest.Keys, OwnerTenant, row.tenant);
  }

  /** `Snapshot` */
  method TakeSnapshot(ix: Index) returns (snap: Snapshot)
    requires ix.Valid()
    ensures forall i, j :: 0 <= i < j < |snap.replicas| ==>
              RowBefore([snap.replicas[i].owner.tenant, snap.replicas[i].owner.replica],
                        [snap.replicas[j].owner.tenant, snap.replicas[j].owner.replica])
    ensures forall i, j :: 0 <= i < j < |snap.tenants| ==> ByteBefore(snap.tenants[i].tenant, snap.tenants[j].tenant)
    ensures forall o :: o in OwnersOf(snap.replicas) <==> Known(ix.Stored(), ix.stats, ix.cfg.reserved, o)
    ensures forall i :: 0 <= i < |snap.replicas| ==> RowFits(snap.replicas[i], ix.Stored(), ix.stats)
    ensures SumPrefixCounts(snap.replicas) == ix.books.total - ix.books.reserved
    ensures forall t :: t in TenantsOf(snap.tenants) <==> exists o :: Known(ix.Stored(), ix.stats, ix.cfg.reserved, o) && o.tenant == t
    ensures forall i :: 0 <= i < |snap.tenants| ==>
              snap.tenants[i].tenant !in ix.cfg.reserved && snap.tenants[i].indexEntries == Get(ix.books.byTenant, snap.tenants[i].tenant)
    ensures forall i :: 0 <= i < |snap.tenants| ==> MeanFits(snap.tenants[i], snap.replicas)
    ensures SumIndexEntries(snap.tenants) == snap.totalPrefixes == |PublicKeys(ix.prefixes.Keys, ix.cfg.reserved)|
  {
    hide Sound, StoredIn, RowFits, Count, RowLess, TenantLess, Latest, NewestBy, RowOf, OwnersOf, TenantsOf, Known, HitsBy,
         TenantRowOf, MeanFits, ByteBefore, RowBefore;
    var reserved := ix.cfg.reserved;
    ghost var es := ix.Stored();
    SoundIsLinked(ix.Now(), reserved);
    var latest := LatestStats(ix.stats, reserved);
    var counts, events := CountHolds(ix.prefixes, ix.arena, reserved, ix.objs, ix.home);
    var perTenant, total := Aggregate(ix.prefixes, reserved);
    var replicas := ReplicaRows(latest, counts, events);
    var sums, ns := TenantHits(latest);
    var tenants := TenantRows(perTenant, sums, ns);
    TenantFacts(tenants, perTenant, latest, sums, ns);
    RowsAreKnown(replicas, latest, counts, events, es, ix.stats, reserved);
    CountConserves(Unreserved(es.Keys, reserved), OwnerOf);
    TenantsAreKnown(ix.Now(), tenants, latest, counts, perTenant, reserved);
    CountConserves(PublicKeys(ix.prefixes.Keys, reserved), TenantOf);
    forall i | 0 <= i < |tenants| ensures MeanFits(tenants[i], replicas) {
      MeanOfRows(tenants[i], replicas, latest, counts, events, perTenant, sums, ns);
    }
    RowsByName(replicas, tenants);
    return Snapshot(replicas, tenants, total);
  }

  /** The rows come by tenant and replica, in byte order. */
  lemma RowsByName(replicas: seq<ReplicaRow>, tenants: seq<TenantRow>)
    requires Ascending(RowLess, replicas) && Ascending(TenantLess, tenants)
    ensures forall i, j :: 0 <= i < j < |replicas| ==>
              RowBefore([replicas[i].owner.tenant, replicas[i].owner.replica], [replicas[j].owner.tenant, replicas[j].owner.replica])
    ensures forall i, j :: 0 <= i < j < |tenants| ==> ByteBefore(tenants[i].tenant, tenants[j].tenant)
  {
    hide Less, ByteBefore, RowBefore;
    forall i, j | 0 <= i < j < |replicas|
      ensures RowBefore([replicas[i].owner.tenant, replicas[i].owner.replica], [replicas[j].owner.tenant, replicas[j].owner.replica])
    {
      OwnerRow(replicas[i].owner, replicas[j].owner);
    }
    forall i, j | 0 <= i < j < |tenants| ensures ByteBefore(tenants[i].tenant, tenants[j].tenant) {
      LessIsByteOrder(tenants[i].tenant, tenants[j].tenant);
    }
  }

  lemma OwnerRow(x: Owner, y: Owner)
    requires OwnerLess(x, y)
    ensures RowBefore([x.tenant, x.replica], [y.tenant, y.replica])
  {
    hide Less, ByteBefore;
    var a, b, k := [x.tenant, x.replica], [y.tenant, y.replica], if x.tenant != y.tenant then 0 else 1;
    LessIsByteOrder(a[k], b[k]);
    assert a[..k] == b[..k];
  }

  lemma TenantFacts(rows: seq<TenantRow>, perTenant: map<string, int>, latest: map<Owner, StatEntry>, sums: map<string, real>, ns: map<string, int>)
    requires HitsBy(sums, ns, latest, latest.Keys)
    requires forall i :: 0 <= i < |rows| ==> rows[i] == TenantRowOf(rows[i].tenant, perTenant, sums, ns)
    ensures ns.Keys == Image(latest.Keys, OwnerTenant)
    ensures forall i :: 0 <= i < |rows| ==> rows[i].indexEntries == Get(perTenant, rows[i].tenant)
  {}

  lemma RowsAreKnown(rows: seq<ReplicaRow>, latest: map<Owner, StatEntry>, counts: map<Owner, int>,
                     events: map<Owner, int>,
                     es: Entries, stats: map<StatsKey, StatEntry>, reserved: set<string>)
    requires Ascending(RowLess, rows) && OwnersOf(rows) == latest.Keys + counts.Keys
    requires forall i :: 0 <= i < |rows| ==> rows[i] == RowOf(rows[i].owner, latest, counts, events)
    requires Latest(latest, stats, PublicStats(stats.Keys, reserved))
    requires counts == Count(Unreserved(es.Keys, reserved), OwnerOf)
    requires NewestBy(events, es, Unreserved(es.Keys, reserved))
    ensures forall o :: o in OwnersOf(rows) <==> Known(es, stats, reserved, o)
    ensures forall i :: 0 <= i < |rows| ==> RowFits(rows[i], es, stats)
    ensures SumPrefixCounts(rows) == Total(counts)
  {
    hide Latest, NewestBy, Count, RowFits, RowLess;
    forall o ensures o in OwnersOf(rows) <==> Known(es, stats, reserved, o) {
      SeenIsKnown(latest, counts, es, stats, reserved, o);
    }
    forall i | 0 <= i < |rows| ensures RowFits(rows[i], es, stats) {
      assert rows[i].owner in OwnersOf(rows);
      RowOfFits(rows[i].owner, latest, counts, events, es, stats, reserved);
    }
    AscendingOwners(rows);
    PrefixCountsTotal(rows, counts);
  }

  lemma TenantsAreKnown(r: Rep, rows: seq<TenantRow>, latest: map<Owner, StatEntry>, counts: map<Owner, int>,
                        perTenant: map<string, int>,
                        reserved: set<string>)
    requires Sound(r, reserved) && Ascending(TenantLess, rows)
    requires TenantsOf(rows) == Image(latest.Keys, OwnerTenant) + perTenant.Keys
    requires forall i :: 0 <= i < |rows| ==> rows[i].indexEntries == Get(perTenant, rows[i].tenant)
    requires Latest(latest, r.stats, PublicStats(r.stats.Keys, reserved))
    requires counts == Count(Unreserved(EntriesOf(r).Keys, reserved), OwnerOf)
    requires perTenant == Count(PublicKeys(r.prefixes.Keys, reserved), TenantOf)
    ensures forall t :: t in TenantsOf(rows) <==> exists o :: Known(EntriesOf(r), r.stats, reserved, o) && o.tenant == t
    ensures forall i :: 0 <= i < |rows| ==> rows[i].tenant !in reserved && rows[i].indexEntries == Get(r.books.byTenant, rows[i].tenant)
    ensures SumIndexEntries(rows) == Total(perTenant)
    ensures r.books.total - r.books.reserved == |Unreserved(EntriesOf(r).Keys, reserved)|
  {
    hide Sound, Latest, Count, TenantLess, EntriesOf;
    PublicTenantCount(r, reserved, "");
    forall t ensures t in TenantsOf(rows) <==> exists o :: Known(EntriesOf(r), r.stats, reserved, o) && o.tenant == t {
      TenantIsKnown(r, latest, counts, perTenant, reserved, t);
    }
    forall i | 0 <= i < |rows| ensures rows[i].tenant !in reserved && rows[i].indexEntries == Get(r.books.byTenant, rows[i].tenant) {
      assert rows[i].tenant in TenantsOf(rows);
      PublicTenantCount(r, reserved, rows[i].tenant);
    }
    AscendingTenants(rows);
    IndexEntriesTotal(rows, perTenant);
  }

  lemma TenantIsKnown(r: Rep, latest: map<Owner, StatEntry>, counts: map<Owner, int>, perTenant: map<string, int>,
                      reserved: set<string>, t: string)
    requires Sound(r, reserved)
    requires Latest(latest, r.stats, PublicStats(r.stats.Keys, reserved))
    requires counts == Count(Unreserved(EntriesOf(r).Keys, reserved), OwnerOf)
    requires perTenant == Count(PublicKeys(r.prefixes.Keys, reserved), TenantOf)
    ensures t in Image(latest.Keys, OwnerTenant) + perTenant.Keys <==> exists o :: Known(EntriesOf(r), r.stats, reserved, o) && o.tenant == t
  {
    hide Sound, Latest, Count, EntriesOf;
    var es := EntriesOf(r);
    CountAt(PublicKeys(r.prefixes.Keys, reserved), TenantOf, t);
    if t in Image(latest.Keys, OwnerTenant) {
      var o :| o in latest.Keys && OwnerTenant(o) == t;
      SeenIsKnown(latest, counts, es, r.stats, reserved, o);
    } else if t in perTenant {
      var key :| key in Fiber(PublicKeys(r.prefixes.Keys, reserved), TenantOf, t);
      var replica := SomeHolder(r, reserved, key);
      assert OwnerOf(Held(key, replica)) == Owner(t, replica);
      assert Known(es, r.stats, reserved, Owner(t, replica));
    }
    if o :| Known(es, r.stats, reserved, o) && o.tenant == t {
      SeenIsKnown(latest, counts, es, r.stats, reserved, o);
      if o in latest {
        assert OwnerTenant(o) in Image(latest.Keys, OwnerTenant);
      } else {
        CountAt(Unreserved(es.Keys, reserved), OwnerOf, o);
        var h :| h in Fiber(Unreserved(es.Keys, reserved), OwnerOf, o);
        SoundHas(r, reserved, h);
        assert h.key in Fiber(PublicKeys(r.prefixes.Keys, reserved), TenantOf, t);
      }
    }
  }

  lemma SomeHolder(r: Rep, reserved: set<string>, key: PrefixKey) returns (replica: string)
    requires Sound(r, reserved) && key in r.prefixes
    ensures Held(key, replica) in EntriesOf(r)
  {
    assert r.prefixes[key] != map[] by { hide Homed, Credited, Accounts, Group; }
    replica :| replica in r.prefixes[key];
    SoundAt(r, reserved, key, replica);
  }
}
