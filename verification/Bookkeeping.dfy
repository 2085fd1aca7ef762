/** The representation invariant of the index as predicates on values
    (internal/index/index.go:79-97, 133-185): how the nested primary map, the
    allocated entries and the hand-kept counts belong together, and how one
    insertion or removal keeps them so.
 */
module Bookkeeping {
  import opened Tally
  import opened Domain
  import opened IndexModel

  /** Entries are held by pointer, so a refresh keeps the frequency counter and a
      credit can reach an entry that was evicted meanwhile. A pointer is the
      position of the entry in the arena of everything ever allocated. */
  type Pointer = nat

  /** The primary map: prefix key, then replica. */
  type Nested = map<PrefixKey, map<string, Pointer>>

  /** `m` is `p` with its two levels flattened, and `p` has no empty inner map. */
  ghost predicate Flattens(p: Nested, m: map<Held, Pointer>) {
    && (forall h :: h in m ==> h.key in p && h.replica in p[h.key] && p[h.key][h.replica] == m[h])
    && (forall k, r :: k in p && r in p[k] ==> Held(k, r) in m)
    && (forall k :: k in p ==> p[k] != map[])
  }

  function Inner(p: Nested, key: PrefixKey): map<string, Pointer> {
    if key in p then p[key] else map[]
  }

  /** The primary map after adding one hold. */
  function Attach(p: Nested, h: Held, e: Pointer): Nested {
    p[h.key := Inner(p, h.key)[h.replica := e]]
  }

  /** The primary map after dropping one hold, and its key with the last one. */
  function Detach(p: Nested, h: Held): Nested {
    var inner := Inner(p, h.key) - {h.replica};
    if inner == map[] then p - {h.key} else p[h.key := inner]
  }

  lemma FlatInsert(p: Nested, m: map<Held, Pointer>, h: Held, e: Pointer)
    requires Flattens(p, m)
    ensures Flattens(Attach(p, h, e), m[h := e])
  {
    assert h.replica in Inner(p, h.key)[h.replica := e];
  }

  lemma FlatErase(p: Nested, m: map<Held, Pointer>, h: Held)
    requires h in m && Flattens(p, m)
    ensures Flattens(Detach(p, h), m - {h})
  {
    var inner := p[h.key] - {h.replica};
    if inner == map[] {
      forall r | r in p[h.key] ensures r == h.replica { assert r !in inner; }
    }
  }

  lemma FlatKeys(p: Nested, m: map<Held, Pointer>)
    requires Flattens(p, m)
    ensures PrefixKeys(m.Keys) == p.Keys
  {
    forall k | k in p ensures k in PrefixKeys(m.Keys) {
      var r :| r in p[k];
      assert Held(k, r) in m.Keys;
    }
  }

  lemma FlatAt(p: Nested, m: map<Held, Pointer>, h: Held)
    requires Flattens(p, m)
    ensures h in m <==> h.replica in Inner(p, h.key)
    ensures h in m ==> h.key in p && p[h.key][h.replica] == m[h]
  {}

  // ---- Entries ----

  /** Every stored pointer is allocated, and was allocated for the hold that
      stores it: no two holds share an entry, and an entry is never reused. */
  ghost predicate Homed(objs: map<Held, Pointer>, home: seq<Held>) {
    forall h :: h in objs ==> objs[h] < |home| && home[objs[h]] == h
  }

  /** Every frequency counter is the number of credits its entry was given. */
  ghost predicate Credited(arena: seq<Entry>, ledger: multiset<Pointer>) {
    && (forall p :: 0 <= p < |arena| ==> arena[p].hits == ledger[p])
    && (forall p :: p in ledger ==> p < |arena|)
  }

  /** The stored entries as values. */
  ghost function StoredIn(objs: map<Held, Pointer>, arena: seq<Entry>): Entries {
    map h | h in objs && objs[h] < |arena| :: arena[objs[h]]
  }

  const BLANK := Entry(0, 0, TIER_UNSPECIFIED, 0)

  function Refreshed(e: Entry, w: Write, ts: int): Entry {
    e.(tokens := w.tokens, lastSeen := ts, tier := w.tier)
  }

  lemma AllocateKeeps(objs: map<Held, Pointer>, home: seq<Held>, arena: seq<Entry>, ledger: multiset<Pointer>, h: Held)
    requires Homed(objs, home) && Credited(arena, ledger) && |home| == |arena| && h !in objs
    ensures Homed(objs[h := |arena|], home + [h]) && Credited(arena + [BLANK], ledger)
  {}

  lemma RefreshKeeps(arena: seq<Entry>, ledger: multiset<Pointer>, e: Pointer, w: Write, ts: int)
    requires Credited(arena, ledger) && e < |arena|
    ensures Credited(arena[e := Refreshed(arena[e], w, ts)], ledger)
  {}

  lemma StoredRefresh(objs: map<Held, Pointer>, home: seq<Held>, arena: seq<Entry>, h: Held, w: Write, ts: int)
    requires Homed(objs, home) && |home| == |arena| && h in objs && h.key == w.key
    ensures StoredIn(objs, arena[objs[h] := Refreshed(arena[objs[h]], w, ts)]) ==
            Put(StoredIn(objs, arena), w, h.replica, ts)
  {
    forall g | g in objs && g != h ensures objs[g] != objs[h] {
    }
  }

  lemma StoredAllocateRefresh(objs: map<Held, Pointer>, home: seq<Held>, arena: seq<Entry>, h: Held, w: Write, ts: int)
    requires Homed(objs, home) && |home| == |arena| && h !in objs && h == Held(w.key, h.replica)
    ensures StoredIn(objs[h := |arena|], arena + [Refreshed(BLANK, w, ts)]) == Put(StoredIn(objs, arena), w, h.replica, ts)
  {}

  lemma StoredErase(objs: map<Held, Pointer>, arena: seq<Entry>, gone: set<Held>)
    ensures StoredIn(objs - gone, arena) == StoredIn(objs, arena) - gone
  {}

  lemma StoredKeys(objs: map<Held, Pointer>, home: seq<Held>, arena: seq<Entry>)
    requires Homed(objs, home) && |home| == |arena|
    ensures StoredIn(objs, arena).Keys == objs.Keys
    ensures forall h :: h in objs ==> objs[h] < |arena| && StoredIn(objs, arena)[h] == arena[objs[h]]
  {}

  // ---- Counts ----

  /** The five counting structures beside the primary map. */
  datatype Books = Books(total: int, reserved: int, byTenant: map<string, int>, byModel: map<ModelKey, int>,
                         serving: map<ScopeKey, map<string, int>>)

  /** The books are what a full scan would give. */
  ghost predicate Accounts(b: Books, held: set<Held>, reserved: set<string>) {
    && b.total == |held|
    && b.reserved == |ReservedHeld(held, reserved)|
    && b.byTenant == Count(PrefixKeys(held), TenantOf)
    && b.byModel == Count(PrefixKeys(held), ModelOf)
    && b.serving == Count2(held, ScopeOf, ReplicaOf)
  }

  function BookInsert(b: Books, h: Held, newKey: bool, isReserved: bool): Books {
    Books(b.total + 1,
          if isReserved then b.reserved + 1 else b.reserved,
          if newKey then Bump(b.byTenant, h.key.tenant) else b.byTenant,
          if newKey then Bump(b.byModel, ModelOf(h.key)) else b.byModel,
          Bump2(b.serving, ScopeOf(h), h.replica))
  }

  function BookErase(b: Books, h: Held, lastOfKey: bool, isReserved: bool): Books {
    Books(b.total - 1,
          if isReserved then b.reserved - 1 else b.reserved,
          if lastOfKey then Drop(b.byTenant, h.key.tenant) else b.byTenant,
          if lastOfKey then Drop(b.byModel, ModelOf(h.key)) else b.byModel,
          Drop2(b.serving, ScopeOf(h), h.replica))
  }

  lemma ReservedInsert(held: set<Held>, h: Held, reserved: set<string>)
    requires h !in held
    ensures |ReservedHeld(held + {h}, reserved)| ==
            if h.key.tenant in reserved then |ReservedHeld(held, reserved)| + 1 else |ReservedHeld(held, reserved)|
  {
    assert ReservedHeld(held + {h}, reserved) ==
           if h.key.tenant in reserved then ReservedHeld(held, reserved) + {h} else ReservedHeld(held, reserved);
  }

  lemma PrefixKeysInsert(held: set<Held>, h: Held)
    ensures PrefixKeys(held + {h}) == PrefixKeys(held) + {h.key}
  {}

  lemma InsertKeepsBooks(b: Books, held: set<Held>, h: Held, reserved: set<string>)
    requires h !in held && Accounts(b, held, reserved)
    ensures Accounts(BookInsert(b, h, h.key !in PrefixKeys(held), h.key.tenant in reserved), held + {h}, reserved)
  {
    hide Count, Count2, Bump, Bump2, PrefixKeys, ReservedHeld;
    ReservedInsert(held, h, reserved);
    Count2Insert(held, ScopeOf, ReplicaOf, h);
    PrefixKeysInsert(held, h);
    if h.key !in PrefixKeys(held) {
      CountInsert(PrefixKeys(held), TenantOf, h.key);
      CountInsert(PrefixKeys(held), ModelOf, h.key);
    } else {
      assert PrefixKeys(held + {h}) == PrefixKeys(held);
    }
  }

  lemma EraseKeepsBooks(b: Books, held: set<Held>, h: Held, reserved: set<string>)
    requires h in held && Accounts(b, held, reserved)
    ensures Accounts(BookErase(b, h, h.key !in PrefixKeys(held - {h}), h.key.tenant in reserved), held - {h}, reserved)
  {
    hide Count, Count2, Drop, Drop2, PrefixKeys, ReservedHeld;
    var held' := held - {h};
    assert held' + {h} == held;
    ReservedInsert(held', h, reserved);
    Count2Erase(held, ScopeOf, ReplicaOf, h);
    PrefixKeysInsert(held', h);
    if h.key !in PrefixKeys(held') {
      assert PrefixKeys(held') == PrefixKeys(held) - {h.key};
      CountErase(PrefixKeys(held), TenantOf, h.key);
      CountErase(PrefixKeys(held), ModelOf, h.key);
    } else {
      assert PrefixKeys(held') == PrefixKeys(held);
    }
  }

  // ---- Everything together ----

  /** The index as one value: the real fields, and beside them the flattened
      primary map, what each entry was allocated for, and all credits given. */
  datatype Rep = Rep(prefixes: Nested, arena: seq<Entry>, books: Books, stats: map<StatsKey, StatEntry>,
                     byStats: map<ModelKey, set<string>>,
                     objs: map<Held, Pointer>, home: seq<Held>, ledger: multiset<Pointer>)

  ghost predicate Sound(r: Rep, reserved: set<string>) {
    && Flattens(r.prefixes, r.objs)
    && |r.home| == |r.arena| && Homed(r.objs, r.home) && Credited(r.arena, r.ledger)
    && Accounts(r.books, r.objs.Keys, reserved)
    && r.byStats == Group(r.stats.Keys, StatsModel, StatsReplica)
  }

  ghost function EntriesOf(r: Rep): Entries {
    StoredIn(r.objs, r.arena)
  }

  lemma SoundAt(r: Rep, reserved: set<string>, key: PrefixKey, replica: string)
    requires Sound(r, reserved)
    ensures Held(key, replica) in r.objs <==> key in r.prefixes && replica in r.prefixes[key]
    ensures Held(key, replica) in r.objs ==>
              && key in r.prefixes && replica in r.prefixes[key]
              && r.objs[Held(key, replica)] == r.prefixes[key][replica] < |r.arena|
              && Held(key, replica) in EntriesOf(r)
              && EntriesOf(r)[Held(key, replica)] == r.arena[r.prefixes[key][replica]]
    ensures |r.home| == |r.arena|
  {
    FlatAt(r.prefixes, r.objs, Held(key, replica));
  }

  lemma SoundHas(r: Rep, reserved: set<string>, h: Held)
    requires Sound(r, reserved)
    ensures h in EntriesOf(r) <==> h in r.objs
    ensures h in r.objs <==> h.key in r.prefixes && h.replica in r.prefixes[h.key]
  {
    SoundAt(r, reserved, h.key, h.replica);
  }

  ghost function RefreshRep(r: Rep, h: Held, w: Write, ts: int): Rep
    requires h in r.objs && r.objs[h] < |r.arena|
  {
    r.(arena := r.arena[r.objs[h] := Refreshed(r.arena[r.objs[h]], w, ts)])
  }

  ghost function InsertRep(r: Rep, h: Held, w: Write, ts: int, reserved: set<string>): Rep {
    r.(prefixes := Attach(r.prefixes, h, |r.arena|),
       arena := r.arena + [Refreshed(BLANK, w, ts)],
       books := BookInsert(r.books, h, h.key !in r.prefixes, h.key.tenant in reserved),
       objs := r.objs[h := |r.arena|],
       home := r.home + [h])
  }

  lemma RefreshSound(r: Rep, h: Held, w: Write, ts: int, reserved: set<string>)
    requires Sound(r, reserved) && h in r.objs && h.key == w.key
    ensures r.objs[h] < |r.arena|
    ensures var r' := RefreshRep(r, h, w, ts);
            Sound(r', reserved) && EntriesOf(r') == Put(EntriesOf(r), w, h.replica, ts)
  {
    assert r.objs[h] < |r.home|;
    RefreshKeeps(r.arena, r.ledger, r.objs[h], w, ts);
    StoredRefresh(r.objs, r.home, r.arena, h, w, ts);
  }

  lemma InsertSound(r: Rep, h: Held, w: Write, ts: int, reserved: set<string>)
    requires Sound(r, reserved) && h !in r.objs && h.key == w.key
    ensures var r' := InsertRep(r, h, w, ts, reserved);
            Sound(r', reserved) && EntriesOf(r') == Put(EntriesOf(r), w, h.replica, ts)
  {
    hide Flattens, Homed, Credited, Accounts, Group, StoredIn, Put, BookInsert, Attach;
    FlatKeys(r.prefixes, r.objs);
    FlatInsert(r.prefixes, r.objs, h, |r.arena|);
    AllocateKeeps(r.objs, r.home, r.arena, r.ledger, h);
    RefreshKeeps(r.arena + [BLANK], r.ledger, |r.arena|, w, ts);
    assert (r.arena + [BLANK])[|r.arena| := Refreshed(BLANK, w, ts)] == r.arena + [Refreshed(BLANK, w, ts)];
    InsertKeepsBooks(r.books, r.objs.Keys, h, reserved);
    UpdateKeys(r.objs, h, |r.arena|);
    StoredAllocateRefresh(r.objs, r.home, r.arena, h, w, ts);
  }

  /** One removal, on the whole representation. */
  ghost function RemoveRep(r: Rep, h: Held, reserved: set<string>): Rep {
    if h !in r.objs then r
    else
      r.(prefixes := Detach(r.prefixes, h),
         books := BookErase(r.books, h, h.key !in Detach(r.prefixes, h), h.key.tenant in reserved),
         objs := r.objs - {h})
  }

  lemma RemoveSound(r: Rep, h: Held, reserved: set<string>)
    requires Sound(r, reserved)
    ensures Sound(RemoveRep(r, h, reserved), reserved)
  {
    if h in r.objs {
      FlatErase(r.prefixes, r.objs, h);
      FlatKeys(Detach(r.prefixes, h), r.objs - {h});
      MinusKeys(r.objs, h);
      EraseKeepsBooks(r.books, r.objs.Keys, h, reserved);
    }
  }

  // ---- What the counts say ----

  lemma SoundCounts(r: Rep, reserved: set<string>, tenant: string)
    requires Sound(r, reserved)
    ensures Get(r.books.byTenant, tenant) == |TenantKeys(r.objs.Keys, tenant)|
    ensures r.books.total - r.books.reserved == |Unreserved(r.objs.Keys, reserved)|
    ensures EntriesOf(r).Keys == r.objs.Keys
  {
    hide Count, Count2, Group, PrefixKeys, Fiber, Homed, Credited, Flattens, StoredIn;
    CountAt(PrefixKeys(r.objs.Keys), TenantOf, tenant);
    UnreservedCard(r.objs.Keys, reserved);
    StoredKeys(r.objs, r.home, r.arena);
  }

  lemma UnreservedCard(held: set<Held>, reserved: set<string>)
    ensures |held| == |ReservedHeld(held, reserved)| + |Unreserved(held, reserved)|
  {
    assert held == ReservedHeld(held, reserved) + Unreserved(held, reserved);
  }

  /** Stats and the per-model replica sets move together. */
  lemma StatsPutSound(r: Rep, reserved: set<string>, sk: StatsKey, s: StatEntry)
    requires Sound(r, reserved)
    ensures Sound(r.(stats := r.stats[sk := s], byStats := Join(r.byStats, StatsModel(sk), sk.replica)), reserved)
  {
    GroupInsert(r.stats.Keys, StatsModel, StatsReplica, sk);
    UpdateKeys(r.stats, sk, s);
  }

  lemma StatsDropSound(r: Rep, reserved: set<string>, sk: StatsKey)
    requires Sound(r, reserved)
    ensures Sound(r.(stats := r.stats - {sk}, byStats := Leave(r.byStats, StatsModel(sk), sk.replica)), reserved)
  {
    GroupErase(r.stats.Keys, StatsModel, StatsReplica, sk);
    MinusKeys(r.stats, sk);
  }

  lemma StatsTouchSound(r: Rep, reserved: set<string>, sk: StatsKey, s: StatEntry)
    requires Sound(r, reserved) && sk in r.stats
    ensures Sound(r.(stats := r.stats[sk := s]), reserved)
  {
    assert r.stats[sk := s].Keys == r.stats.Keys;
  }

  /** Pointers are never handed to another hold: a hold keeps its entry, or gets
      one allocated after `home` was this long. */
  ghost predicate Descends(objs: map<Held, Pointer>, home: seq<Held>, objs': map<Held, Pointer>, home': seq<Held>) {
    && home <= home'
    && forall h :: h in objs' ==> (h in objs && objs'[h] == objs[h]) || objs'[h] >= |home|
  }

  lemma DescendsTransitive(o: map<Held, Pointer>, m: seq<Held>, o': map<Held, Pointer>, m': seq<Held>,
                           o'': map<Held, Pointer>, m'': seq<Held>)
    requires Descends(o, m, o', m') && Descends(o', m', o'', m'')
    ensures Descends(o, m, o'', m'')
  {}

  /** Within one operation a hold that stays keeps its entry. */
  ghost predicate Inherits(objs: map<Held, Pointer>, home: seq<Held>, objs': map<Held, Pointer>, home': seq<Held>) {
    && home <= home'
    && forall h :: h in objs' ==> if h in objs then objs'[h] == objs[h] else objs'[h] >= |home|
  }

  lemma InheritsDescends(o: map<Held, Pointer>, m: seq<Held>, o': map<Held, Pointer>, m': seq<Held>)
    requires Inherits(o, m, o', m')
    ensures Descends(o, m, o', m')
  {}

  /** Writing drops nothing. */
  ghost predicate Grows(objs: map<Held, Pointer>, home: seq<Held>, objs': map<Held, Pointer>, home': seq<Held>) {
    objs.Keys <= objs'.Keys && Inherits(objs, home, objs', home')
  }

  lemma GrowsTransitive(o: map<Held, Pointer>, m: seq<Held>, o': map<Held, Pointer>, m': seq<Held>,
                        o'': map<Held, Pointer>, m'': seq<Held>)
    requires Grows(o, m, o', m') && Grows(o', m', o'', m'')
    ensures Grows(o, m, o'', m'')
  {}

  lemma GrowsRefl(objs: map<Held, Pointer>, home: seq<Held>)
    ensures Grows(objs, home, objs, home)
  {}

  lemma PutNone(es: Entries, replica: string, ts: int)
    ensures PutAll(es, [], replica, ts) == es
  {}

  lemma PutOne(es: Entries, ws: seq<Write>, w: Write, replica: string, ts: int)
    ensures PutAll(es, ws + [w], replica, ts) == Put(PutAll(es, ws, replica, ts), w, replica, ts)
  {
    assert (ws + [w])[..|ws|] == ws;
  }

  lemma EventKeepsAll(st: State, ev: Event, now: int)
    requires ev.kind.ReplicaUpdated? || ev.kind.PrefixAdded?
    ensures EventF(st, ev, now).entries == st.entries
  {}

  function Credit(e: Entry, n: int): Entry {
    e.(hits := e.hits + n)
  }

  lemma CreditSound(r: Rep, reserved: set<string>, p: Pointer)
    requires Sound(r, reserved) && p < |r.arena|
    ensures Sound(r.(arena := r.arena[p := Credit(r.arena[p], 1)], ledger := r.ledger + multiset{p}), reserved)
  {}

  /** The entries differ in their frequency counters at most. */
  ghost predicate OnlyCounters(arena: seq<Entry>, arena': seq<Entry>) {
    |arena'| == |arena| && forall p :: 0 <= p < |arena| ==> arena'[p] == arena[p].(hits := arena'[p].hits)
  }

  lemma SoundCredited(r: Rep, reserved: set<string>, p: Pointer)
    requires Sound(r, reserved) && p < |r.arena|
    ensures r.arena[p].hits == r.ledger[p]
  {}
}
