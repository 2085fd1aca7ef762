/** The index itself (internal/index/index.go, accounting.go, eviction.go,
    ingest.go): a primary map from prefix key to replica to entry, and six
    structures kept beside it by hand. `Valid` says that all six are at every
    moment what a full scan of the primary map and the stats would give, that no
    empty inner map is left behind, that entries are not shared, and that every
    entry's frequency counter is the number of credits it was ever given. Every
    operation keeps it, and does to the stored state what `IndexModel` says.

    Go map iteration is modelled by picking keys in arbitrary order.
 */
module CacheIndex {
  import opened Sorting
  import opened Tally
  import opened Domain
  import opened Policy
  import opened IndexModel
  import opened Bookkeeping
  import opened Collect
  import opened Eviction
  import opened Reports

  class Index {
    const cfg: Config
    var prefixes: Nested
    var arena: seq<Entry>
    var stats: map<StatsKey, StatEntry>
    /** The counts kept beside `prefixes`: entry totals, distinct keys per tenant
        and per (tenant, model), and holds per engine domain and replica. */
    var books: Books
    var replicasByModel: map<ModelKey, set<string>>

    /** The primary map, flattened. */
    ghost var objs: map<Held, Pointer>
    /** What each entry was allocated for. */
    ghost var home: seq<Held>
    /** Every credit ever delivered. */
    ghost var ledger: multiset<Pointer>

    ghost function Now(): Rep
      reads this
    {
      Rep(prefixes, arena, books, stats, replicasByModel, objs, home, ledger)
    }

    ghost predicate Valid()
      reads this
    {
      Sound(Now(), cfg.reserved)
    }

    /** The stored entries as values. */
    ghost function Stored(): Entries
      reads this
    {
      EntriesOf(Now())
    }

    ghost function View(): State
      reads this
    {
      State(Stored(), stats)
    }

    /** `New` clamps a non-positive TTL and ignores empty reserved tenant ids. */
    constructor (ttl: int, maxEntries: int, reserved: seq<string>, ranker: RankerConfig)
      ensures Valid() && View() == State(map[], map[]) && arena == []
      ensures cfg == Config(if ttl <= 0 then DEFAULT_TTL else ttl, maxEntries, (set t | t in reserved && t != ""), ranker)
    {
      cfg := Config(if ttl <= 0 then DEFAULT_TTL else ttl, maxEntries, (set t | t in reserved && t != ""), ranker);
      prefixes, arena, stats := map[], [], map[];
      books, replicasByModel := Books(0, 0, map[], map[], map[]), map[];
      objs, home, ledger := map[], [], multiset{};
    }

    // ---- accounting.go ----

    /** First sight of a hold: a fresh entry with a zero frequency counter. */
    method InsertReplica(key: PrefixKey, replica: string, tokenCount: int32, tier: int, ts: int)
      requires Valid() && Held(key, replica) !in objs
      modifies this`prefixes, this`arena, this`books, this`objs, this`home
      ensures Valid() && home == old(home) + [Held(key, replica)]
      ensures Stored() == Put(old(Stored()), Write(key, tokenCount, tier), replica, ts)
      ensures objs == old(objs)[Held(key, replica) := |old(arena)|]
    {
      hide Sound, EntriesOf, Put, Bump, Bump2;
      ghost var h := Held(key, replica);
      InsertSound(Now(), h, Write(key, tokenCount, tier), ts, cfg.reserved);
      var p: Nested, b := prefixes, books;
      var replicas: map<string, Pointer> := map[];
      if key in p {
        replicas := p[key];
      } else {
        b := b.(byTenant := Bump(b.byTenant, key.tenant), byModel := Bump(b.byModel, ModelKey(key.tenant, key.model)));
      }
      b := b.(total := b.total + 1);
      if key.tenant in cfg.reserved {
        b := b.(reserved := b.reserved + 1);
      }
      b := b.(serving := Bump2(b.serving, ScopeKey(key.tenant, key.model, key.hashScheme), replica));
      p := p[key := replicas[replica := |arena|]];
      objs, home := objs[h := |arena|], home + [h];
      prefixes, books, arena := p, b, arena + [BLANK.(tokens := tokenCount, lastSeen := ts, tier := tier)];
    }

    /** Insert or refresh one hold; a refresh writes through the same pointer. */
    method UpsertReplica(key: PrefixKey, replica: string, tokenCount: int32, tier: int, ts: int)
      requires Valid()
      modifies this`prefixes, this`arena, this`books, this`objs, this`home
      ensures Valid() && Grows(old(objs), old(home), objs, home)
      ensures Stored() == Put(old(Stored()), Write(key, tokenCount, tier), replica, ts)
    {
      hide Sound, EntriesOf, Put;
      SoundAt(Now(), cfg.reserved, key, replica);
      if key in prefixes && replica in prefixes[key] {
        RefreshSound(Now(), Held(key, replica), Write(key, tokenCount, tier), ts, cfg.reserved);
        var e := prefixes[key][replica];
        arena := arena[e := arena[e].(tokens := tokenCount, lastSeen := ts, tier := tier)];
      } else {
        InsertReplica(key, replica, tokenCount, tier, ts);
      }
    }

    /** Drop one hold, if present. */
    method RemoveReplica(key: PrefixKey, replica: string)
      requires Valid()
      modifies this`prefixes, this`books, this`objs
      ensures Valid() && objs == old(objs) - {Held(key, replica)}
    {
      hide Bookkeeping.Sound;
      ghost var before, h := Now(), Held(key, replica);
      SoundAt(before, cfg.reserved, key, replica);
      RemoveSound(before, h, cfg.reserved);
      var p: Nested, b := prefixes, books;
      if key !in p || replica !in p[key] {
        MinusAbsent(objs, h);
        return;
      }
      var replicas := p[key] - {replica};
      b := b.(total := b.total - 1);
      if key.tenant in cfg.reserved {
        b := b.(reserved := b.reserved - 1);
      }
      if replicas == map[] {
        p := p - {key};
        b := b.(byTenant := Drop(b.byTenant, key.tenant), byModel := Drop(b.byModel, ModelKey(key.tenant, key.model)));
      } else {
        p := p[key := replicas];
      }
      b := b.(serving := Drop2(b.serving, ScopeKey(key.tenant, key.model, key.hashScheme), replica));
      prefixes, books, objs := p, b, objs - {h};
    }
  
    // ---- eviction.go ----

    /** Drop a whole prefix: collect its replica ids, then remove each. */
    method RemovePrefix(key: PrefixKey)
      requires Valid()
      modifies this`prefixes, this`books, this`objs
      ensures Valid() && objs == old(objs) - WithKeys(old(objs).Keys, {key})
    {
      hide Sound;
      if key !in prefixes {
        NoneWithKey(Now(), cfg.reserved, key);
        return;
      }
      var ids := prefixes[key].Keys;
      ghost var gone: set<Held> := {};
      AllWithKey(Now(), cfg.reserved, key);
      assert objs == old(objs) - gone;
      while ids != {}
        invariant Valid() && objs == old(objs) - gone
        invariant forall h :: h in gone <==> h in old(objs) && h.key == key && h.replica !in ids
        decreases ids
      {
        var id :| id in ids;
        ids := ids - {id};
        RemoveReplica(key, id);
        MinusMinus(old(objs), gone, {Held(key, id)});
        MinusOutside(old(objs), gone, Held(key, id));
        gone := if Held(key, id) in old(objs) then gone + {Held(key, id)} else gone;
      }
      assert gone == WithKeys(old(objs).Keys, {key});
    }

    /** Drop listed prefixes in order while the tenant is over its budget. */
    method DropInOrder(all: seq<QuotaRef>, tenant: string, maxPrefixes: int) returns (removed: nat)
      requires Valid() && QuotaListing(all, Stored(), tenant) && |all| >= maxPrefixes >= 0
      modifies this`prefixes, this`books, this`objs
      ensures Valid() && removed == |all| - maxPrefixes
      ensures objs == old(objs) - WithKeys(old(objs).Keys, Cut(all, RefKey, removed))
    {
      hide Sound, StoredIn, QuotaListing, Cut, WithKeys;
      ghost var es := Stored();
      removed := 0;
      SoundIsLinked(Now(), cfg.reserved);
      QuotaFirst(objs, all);
      QuotaProgress(Now(), cfg.reserved, old(objs), es, tenant, all, 0);
      while removed < |all| && Get(books.byTenant, tenant) > maxPrefixes
        invariant removed <= |all| && Valid()
        invariant objs == old(objs) - WithKeys(old(objs).Keys, Cut(all, RefKey, removed))
        invariant Get(books.byTenant, tenant) == |all| - removed >= maxPrefixes
        decreases |all| - removed
      {
        RemovePrefix(all[removed].key);
        CutNext(all, RefKey, removed);
        WithKeysStep(old(objs), Cut(all, RefKey, removed), all[removed].key);
        removed := removed + 1;
        QuotaProgress(Now(), cfg.reserved, old(objs), es, tenant, all, removed);
      }
    }

    /** Fairness: evict the tenant's oldest distinct prefixes down to its budget. */
    method EvictOldestForTenant(tenant: string, maxPrefixes: int) returns (removed: int)
      requires Valid()
      modifies this`prefixes, this`books, this`objs
      ensures Valid() && Stored() == QuotaF(old(Stored()), tenant, maxPrefixes)
      ensures removed == |QuotaVictims(old(Stored()), tenant, maxPrefixes)|
      ensures forall h :: h in objs ==> h in old(objs) && objs[h] == old(objs[h])
    {
      hide Sound, QuotaF, QuotaVictims, TenantKeys, StoredIn, QuotaListing, Linked, QuotaRefs, Cut, Older, WithKeys;
      ghost var es := Stored();
      SoundCounts(Now(), cfg.reserved, tenant);
      if maxPrefixes < 0 || Get(books.byTenant, tenant) <= maxPrefixes {
        QuotaIdle(es, tenant, maxPrefixes);
        return 0;
      }
      SoundIsLinked(Now(), cfg.reserved);
      var all := CollectQuotaRefs(prefixes, arena, tenant, objs, home);
      QuotaSorted(all, es, tenant);
      all := Sort(Older, all);
      QuotaCut(all, es, tenant, 0);
      removed := DropInOrder(all, tenant, maxPrefixes);
      QuotaDoneStored(old(objs), arena, tenant, maxPrefixes, all, removed);
    }

    /** Evict unreserved entries, least valuable first, until within the cap. */
    method EnforceCap(pol: Policies)
      requires Valid()
      modifies this`prefixes, this`books, this`objs
      ensures Valid() && Stored() == CapF(old(Stored()), pol, cfg)
      ensures forall h :: h in objs ==> h in old(objs) && objs[h] == old(objs[h])
      ensures forall v, h :: v in old(Stored()) && v !in Stored() && h in old(Stored()) && h in Stored() && h.key.tenant !in cfg.reserved ==>
                WorthLess(old(Stored()), pol, v, h)
    {
      hide Sound, CapF, Unreserved, StoredIn, CapListing, Linked, CapRefs, Cut, EvictFirst, WorthLess;
      ghost var es := Stored();
      CapEvictsLeastWorth(es, pol, cfg);
      SoundCounts(Now(), cfg.reserved, "");
      if cfg.maxEntries <= 0 || books.total - books.reserved <= cfg.maxEntries {
        CapIdle(es, pol, cfg);
        return;
      }
      SoundIsLinked(Now(), cfg.reserved);
      var all := CollectCapRefs(prefixes, arena, pol, cfg.reserved, objs, home);
      CapSorted(all, es, pol, cfg.reserved);
      all := Sort(EvictFirst, all);
      var n := 0;
      CapFirst(objs, all);
      CapProgress(Now(), cfg.reserved, old(objs), es, pol, all, 0);
      while n < |all| && books.total - books.reserved > cfg.maxEntries
        invariant 0 <= n <= |all| && Valid()
        invariant objs == old(objs) - Cut(all, HeldOfRef, n)
        invariant books.total - books.reserved == |all| - n >= cfg.maxEntries
        decreases |all| - n
      {
        RemoveReplica(all[n].key, all[n].replica);
        CutNext(all, HeldOfRef, n);
        MinusMinus(old(objs), Cut(all, HeldOfRef, n), {HeldOfRef(all[n])});
        n := n + 1;
        CapProgress(Now(), cfg.reserved, old(objs), es, pol, all, n);
      }
      CapDoneStored(old(objs), arena, pol, cfg, all, n);
    }
  
    /** The replicas of one prefix that are past the time to live go. */
    method ExpireKey(key: PrefixKey, now: int, ttl: int)
      requires Valid()
      modifies this`prefixes, this`books, this`objs
      ensures Valid() && objs == old(objs) - Stale(old(Stored()), key, now, ttl)
    {
      hide Sound, EntriesOf, Expired;
      ghost var es := Stored();
      var ids := if key in prefixes then prefixes[key].Keys else {};
      var p := prefixes;
      ghost var gone: set<Held> := {};
      forall h | h in es && h.key == key ensures h.replica in ids {
        SoundHas(Now(), cfg.reserved, h);
      }
      assert objs == old(objs) - gone;
      while ids != {}
        invariant Valid() && objs == old(objs) - gone && (ids != {} ==> key in p && ids <= p[key].Keys)
        invariant forall h :: h in gone <==> h in es && h.key == key && h.replica !in ids && Expired(es[h].lastSeen, now, ttl)
        decreases ids
      {
        var id :| id in ids;
        ids := ids - {id};
        SoundAt(old(Now()), cfg.reserved, key, id);
        var e := arena[p[key][id]];
        if Expired(e.lastSeen, now, ttl) {
          RemoveReplica(key, id);
          MinusMinus(old(objs), gone, {Held(key, id)});
          gone := gone + {Held(key, id)};
        }
      }
      assert gone == Stale(es, key, now, ttl);
    }

    method ExpireEntries(now: int, pol: Policies)
      requires Valid()
      modifies this`prefixes, this`books, this`objs
      ensures Valid() && Stored() == SweepF(old(View()), now, pol, cfg).entries
      ensures forall h :: h in objs ==> h in old(objs) && objs[h] == old(objs[h])
    {
      hide Sound, Expired, TtlFor, StoredIn, SweepF;
      ghost var es := Stored();
      var keys := prefixes.Keys;
      ghost var gone: set<Held> := {};
      forall h | h in es ensures h.key in keys {
        SoundHas(Now(), cfg.reserved, h);
      }
      assert objs == old(objs) - gone;
      while keys != {}
        invariant Valid() && objs == old(objs) - gone
        invariant forall h :: h in gone <==>
                    h in es && h.key !in keys && Expired(es[h].lastSeen, now, TtlFor(cfg, pol, h.key.tenant))
        decreases keys
      {
        var key :| key in keys;
        keys := keys - {key};
        ghost var more := Stale(Stored(), key, now, TtlFor(cfg, pol, key.tenant));
        StoredErase(old(objs), arena, gone);
        ExpireKey(key, now, TtlFor(cfg, pol, key.tenant));
        MinusMinus(old(objs), gone, more);
        gone := gone + more;
      }
      SweepStored(old(objs), arena, old(View()), now, pol, cfg, gone);
    }

    method ExpireStats(now: int, pol: Policies)
      requires Valid()
      modifies this`stats, this`replicasByModel
      ensures Valid() && stats == SweepF(old(View()), now, pol, cfg).stats
    {
      hide Sound, Expired, TtlFor, EntriesOf;
      var keys := stats.Keys;
      ghost var gone: set<StatsKey> := {};
      assert stats == old(stats) - gone;
      while keys != {}
        invariant Valid() && stats == old(stats) - gone && keys <= old(stats).Keys
        invariant forall s :: s in gone <==>
                    s in old(stats) && s !in keys && Expired(old(stats)[s].lastSeen, now, TtlFor(cfg, pol, s.tenant))
        decreases keys
      {
        var sk :| sk in keys;
        keys := keys - {sk};
        if Expired(stats[sk].lastSeen, now, TtlFor(cfg, pol, sk.tenant)) {
          StatsDropSound(Now(), cfg.reserved, sk);
          stats, replicasByModel := stats - {sk}, Leave(replicasByModel, ModelKey(sk.tenant, sk.model), sk.replica);
          MinusMinus(old(stats), gone, {sk});
          gone := gone + {sk};
        }
      }
    }

    /** The TTL sweep: entries first, then stats. */
    method EvictExpired(now: int, pol: Policies)
      requires Valid()
      modifies this`prefixes, this`books, this`objs, this`stats, this`replicasByModel
      ensures Valid() && View() == SweepF(old(View()), now, pol, cfg)
      ensures forall h :: h in objs ==> h in old(objs) && objs[h] == old(objs[h])
    {
      hide Sound, StoredIn, Expired, TtlFor;
      ExpireEntries(now, pol);
      ExpireStats(now, pol);
    }
  
    // ---- ingest.go ----

    /** One reported prefix: a chain is expanded into one entry per block, with
        cumulative token counts; a chain whose arrays disagree is dropped. */
    method IngestRef(u: Update, p: PrefixRef, ts: int)
      requires Valid()
      modifies this`prefixes, this`arena, this`books, this`objs, this`home
      ensures Valid() && Grows(old(objs), old(home), objs, home)
      ensures Stored() == PutAll(old(Stored()), RefWrites(u, p), u.replica, ts)
    {
      hide Sound, EntriesOf, Grows, Put, PutAll;
      ghost var es := Stored();
      var tier := NormalizeTier(p.tier);
      var adapter := if p.adapter == "" then u.adapter else p.adapter;
      GrowsRefl(objs, home);
      if |p.blockHashes| > 0 || |p.blockTokenCounts| > 0 {
        if |p.blockHashes| != |p.blockTokenCounts| {
          PutNone(es, u.replica, ts);
          return;
        }
        var cumulative: int32 := 0;
        PutNone(es, u.replica, ts);
        for j := 0 to |p.blockHashes|
          invariant Valid() && cumulative == RunningSum(p.blockTokenCounts, j)
          invariant Grows(old(objs), old(home), objs, home)
          invariant Stored() == PutAll(es, ChainWrites(u, p, j), u.replica, ts)
        {
          cumulative := Int32(cumulative + p.blockTokenCounts[j]);
          ghost var o, m := objs, home;
          UpsertReplica(PrefixKey(u.tenant, u.model, u.hashScheme, adapter, p.blockHashes[j]), u.replica, cumulative, tier, ts);
          GrowsTransitive(old(objs), old(home), o, m, objs, home);
          PutOne(es, ChainWrites(u, p, j), Write(KeyIn(u, p, p.blockHashes[j]), cumulative, tier), u.replica, ts);
        }
        if |p.prefixHash| > 0 {
          ghost var o, m := objs, home;
          UpsertReplica(PrefixKey(u.tenant, u.model, u.hashScheme, adapter, p.prefixHash), u.replica, p.tokenCount, tier, ts);
          GrowsTransitive(old(objs), old(home), o, m, objs, home);
          PutOne(es, ChainWrites(u, p, |p.blockHashes|), LegacyWrite(u, p), u.replica, ts);
        } else {
          assert ChainWrites(u, p, |p.blockHashes|) + [] == ChainWrites(u, p, |p.blockHashes|);
        }
        return;
      }
      UpsertReplica(PrefixKey(u.tenant, u.model, u.hashScheme, adapter, p.prefixHash), u.replica, p.tokenCount, tier, ts);
      PutNone(es, u.replica, ts);
      PutOne(es, [], LegacyWrite(u, p), u.replica, ts);
      assert [] + [LegacyWrite(u, p)] == [LegacyWrite(u, p)];
    }

    method IngestPrefixes(u: Update, ts: int)
      requires Valid()
      modifies this`prefixes, this`arena, this`books, this`objs, this`home
      ensures Valid() && Grows(old(objs), old(home), objs, home)
      ensures Stored() == PutAll(old(Stored()), Writes(u), u.replica, ts)
    {
      hide Sound, EntriesOf, Grows, PutAll, RefWrites;
      ghost var es := Stored();
      GrowsRefl(objs, home);
      PutNone(es, u.replica, ts);
      if u.hashScheme != "" {
        for n := 0 to |u.prefixes|
          invariant Valid() && Grows(old(objs), old(home), objs, home)
          invariant Stored() == PutAll(es, FirstWrites(u, n), u.replica, ts)
        {
          ghost var o, m := objs, home;
          IngestRef(u, u.prefixes[n], ts);
          GrowsTransitive(old(objs), old(home), o, m, objs, home);
          PutAllAppend(es, FirstWrites(u, n), RefWrites(u, u.prefixes[n]), u.replica, ts);
        }
      }
    }

    /** `Ingest`: writes, then stats, then the tenant's quota, then the cap. */
    method Ingest(u: Update, now: int, pol: Policies)
      requires Valid()
      modifies this`prefixes, this`arena, this`books, this`objs, this`home, this`stats, this`replicasByModel
      ensures Valid() && Inherits(old(objs), old(home), objs, home)
      ensures View() == IngestF(old(View()), u, now, pol, cfg)
    {
      hide Sound, StoredIn, PutAll, CapF, QuotaF, QuotaVictims, Writes;
      var ts := if u.timestamp == 0 then now else u.timestamp;
      IngestPrefixes(u, ts);
      if u.stats.Some? {
        var sk := StatsKey(u.tenant, u.model, u.replica);
        var s := StatEntry(u.stats.value.(replica := u.replica), ts, ts);
        StatsPutSound(Now(), cfg.reserved, sk, s);
        stats, replicasByModel := stats[sk := s], Join(replicasByModel, ModelKey(u.tenant, u.model), u.replica);
      }
      var quota := pol.TenantQuota(u.tenant);
      if quota.Some? {
        var evicted := EvictOldestForTenant(u.tenant, quota.value);
      }
      EnforceCap(pol);
    }

    /** The replica loses every key the event targets. */
    method EraseTargets(ev: Event, now: int)
      requires Valid()
      modifies this`prefixes, this`books, this`objs
      ensures Valid() && Stored() == EventF(old(View()), ev, now).entries
      ensures forall h :: h in objs ==> h in old(objs) && objs[h] == old(objs[h])
    {
      hide Sound, StoredIn, EventF, Targets;
      ghost var es := Stored();
      var keys := prefixes.Keys;
      ghost var gone: set<Held> := {};
      forall h ensures h in es ==> h.key in keys ensures h in es <==> h in objs {
        SoundHas(Now(), cfg.reserved, h);
      }
      assert objs == old(objs) - gone;
      while keys != {}
        invariant Valid() && objs == old(objs) - gone
        invariant forall h :: h in gone <==> h in old(objs) && h.key !in keys && Erases(ev, h)
        decreases keys
      {
        var key :| key in keys;
        keys := keys - {key};
        if Targets(ev, key) {
          RemoveReplica(key, ev.replica);
          MinusMinus(old(objs), gone, {Held(key, ev.replica)});
          MinusOutside(old(objs), gone, Held(key, ev.replica));
          gone := if Held(key, ev.replica) in old(objs) then gone + {Held(key, ev.replica)} else gone;
        }
      }
      EventStored(old(objs), arena, old(View()), ev, now, gone);
    }

    /** `ApplyEvent`: removals and replica liveness; additions are not taken from
        events. */
    method ApplyEvent(ev: Event, now: int)
      requires Valid()
      modifies this`prefixes, this`books, this`objs, this`stats, this`replicasByModel
      ensures Valid() && View() == EventF(old(View()), ev, now)
      ensures forall h :: h in Stored() <==> h in old(Stored()) && !Withdraws(ev, h)
      ensures forall h :: h in objs ==> h in old(objs) && objs[h] == old(objs[h])
    {
      hide Sound, StoredIn;
      forall h ensures h in EventF(View(), ev, now).entries <==> h in Stored() && !Withdraws(ev, h) {
        EventTakes(View(), ev, now, h);
      }
      var ts := if ev.timestamp == 0 then now else ev.timestamp;
      var sk := StatsKey(ev.tenant, ev.model, ev.replica);
      match ev.kind
      case ReplicaUpdated =>
        EventKeepsAll(View(), ev, now);
        if sk in stats {
          StatsTouchSound(Now(), cfg.reserved, sk, stats[sk].(lastSeen := ts));
          stats := stats[sk := stats[sk].(lastSeen := ts)];
        }
      case PrefixEvicted =>
        EraseTargets(ev, now);
      case AllCleared =>
        EraseTargets(ev, now);
        StatsDropSound(Now(), cfg.reserved, sk);
        stats, replicasByModel := stats - {sk}, Leave(replicasByModel, ModelKey(ev.tenant, ev.model), ev.replica);
      case PrefixAdded =>
        EventKeepsAll(View(), ev, now);
    }

    // ---- types.go ----

    /** `CreditHits` for one replica: every entry of the delivered match gains one
        use, wherever it is stored by now. */
    method CreditHits(hits: seq<Pointer>)
      requires Valid() && forall i :: 0 <= i < |hits| ==> hits[i] < |arena|
      modifies this`arena, this`ledger
      ensures Valid() && ledger == old(ledger) + multiset(hits) && |arena| == |old(arena)|
      ensures forall p :: 0 <= p < |arena| ==> arena[p] == Credit(old(arena)[p], multiset(hits)[p])
    {
      hide Sound;
      for i := 0 to |hits|
        invariant Valid() && |arena| == |old(arena)| && ledger == old(ledger) + multiset(hits[..i])
        invariant forall p :: 0 <= p < |arena| ==> arena[p] == Credit(old(arena)[p], multiset(hits[..i])[p])
      {
        var p := hits[i];
        CreditSound(Now(), cfg.reserved, p);
        assert hits[..i + 1] == hits[..i] + [p];
        arena, ledger := arena[p := Credit(arena[p], 1)], ledger + multiset{p};
      }
      assert hits[..|hits|] == hits;
    }
  }
}
