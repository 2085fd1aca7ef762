/** The index as a value: what it stores, with none of the redundant structures,
    and what each operation does to it. The `Index` class refines these
    functions; the run theorems are about them.
 */
module IndexModel {
  import opened Ordering
  import opened Tally
  import opened Domain
  import opened Policy

  /** A stored entry. `hits` is the frequency counter (`accessCount`). */
  datatype Entry = Entry(tokens: int32, lastSeen: int, tier: int, hits: int)
  type Entries = map<Held, Entry>
  datatype State = State(entries: Entries, stats: map<StatsKey, StatEntry>)

  // ---- Scans of the stored entries ----

  ghost function PrefixKeys(held: set<Held>): set<PrefixKey> {
    set h | h in held :: h.key
  }

  ghost function TenantKeys(held: set<Held>, tenant: string): set<PrefixKey> {
    Fiber(PrefixKeys(held), TenantOf, tenant)
  }

  ghost function ReservedHeld(held: set<Held>, reserved: set<string>): set<Held> {
    set h | h in held && h.key.tenant in reserved
  }

  ghost function Unreserved(held: set<Held>, reserved: set<string>): set<Held> {
    held - ReservedHeld(held, reserved)
  }

  ghost function ScopeHeld(held: set<Held>, scope: ScopeKey): set<Held> {
    Fiber(held, ScopeOf, scope)
  }

  /** The replicas holding at least one prefix of the engine domain. */
  ghost function Serving(held: set<Held>, scope: ScopeKey): set<string> {
    Image(ScopeHeld(held, scope), ReplicaOf)
  }

  // ---- Ingest: an update is a sequence of writes ----

  datatype Write = Write(key: PrefixKey, tokens: int32, tier: int)

  function NormalizeTier(t: int): int {
    if t == TIER_UNSPECIFIED then TIER_T1 else t
  }

  /** The wrapping 32-bit sum of the first `n` counts. */
  function RunningSum(counts: seq<int32>, n: nat): int32
    requires n <= |counts|
  {
    if n == 0 then 0 else Int32(RunningSum(counts, n - 1) + counts[n - 1])
  }

  function AdapterOf(u: Update, p: PrefixRef): string {
    if p.adapter == "" then u.adapter else p.adapter
  }

  function KeyIn(u: Update, p: PrefixRef, hash: string): PrefixKey {
    PrefixKey(u.tenant, u.model, u.hashScheme, AdapterOf(u, p), hash)
  }

  predicate ChainForm(p: PrefixRef) {
    |p.blockHashes| > 0 || |p.blockTokenCounts| > 0
  }

  function LegacyWrite(u: Update, p: PrefixRef): Write {
    Write(KeyIn(u, p, p.prefixHash), p.tokenCount, NormalizeTier(p.tier))
  }

  /** One write per block, each with the cumulative token count. */
  function ChainWrites(u: Update, p: PrefixRef, n: nat): seq<Write>
    requires n <= |p.blockHashes| == |p.blockTokenCounts|
  {
    if n == 0 then []
    else ChainWrites(u, p, n - 1)
         + [Write(KeyIn(u, p, p.blockHashes[n - 1]), RunningSum(p.blockTokenCounts, n), NormalizeTier(p.tier))]
  }

  function RefWrites(u: Update, p: PrefixRef): seq<Write> {
    if ChainForm(p) then
      if |p.blockHashes| != |p.blockTokenCounts| then []
      else ChainWrites(u, p, |p.blockHashes|) + if |p.prefixHash| > 0 then [LegacyWrite(u, p)] else []
    else [LegacyWrite(u, p)]
  }

  function FirstWrites(u: Update, n: nat): seq<Write>
    requires n <= |u.prefixes|
  {
    if n == 0 then [] else FirstWrites(u, n - 1) + RefWrites(u, u.prefixes[n - 1])
  }

  /** Without a hash scheme nothing is indexed. */
  function Writes(u: Update): seq<Write> {
    if u.hashScheme == "" then [] else FirstWrites(u, |u.prefixes|)
  }

  /** Insert or refresh; a refresh keeps the frequency counter. */
  function Put(es: Entries, w: Write, replica: string, ts: int): Entries {
    var h := Held(w.key, replica);
    es[h := Entry(w.tokens, ts, w.tier, if h in es then es[h].hits else 0)]
  }

  function PutAll(es: Entries, ws: seq<Write>, replica: string, ts: int): Entries {
    if ws == [] then es else Put(PutAll(es, ws[..|ws| - 1], replica, ts), ws[|ws| - 1], replica, ts)
  }

  lemma {:induction false} PutAllAppend(es: Entries, a: seq<Write>, b: seq<Write>, replica: string, ts: int)
    ensures PutAll(es, a + b, replica, ts) == PutAll(PutAll(es, a, replica, ts), b, replica, ts)
  {
    if b == [] {
      assert a + b == a;
    } else {
      var b' := b[..|b| - 1];
      PutAllAppend(es, a, b', replica, ts);
      assert (a + b)[..|a + b| - 1] == a + b';
    }
  }

  function TimeOf(timestamp: int, now: int): int {
    if timestamp == 0 then now else timestamp
  }

  // ---- Quota: the tenant's oldest prefixes go, whole ----

  ghost function LastSeens(es: Entries, key: PrefixKey): set<int> {
    set h | h in es && h.key == key :: es[h].lastSeen
  }

  /** The maximum of a set of times, not before the zero time. */
  ghost function Newest(ts: set<int>): (m: int)
    ensures m >= 0 && (m in ts || m == 0)
    ensures forall x :: x in ts ==> x <= m
  {
    if !(exists t :: t in ts) then 0
    else
      var t :| t in ts;
      var rest := Newest(ts - {t});
      assert forall x :: x in ts ==> x == t || x in ts - {t};
      if t > rest then t else rest
  }

  /** A prefix is as old as its freshest replica. */
  ghost function Age(es: Entries, key: PrefixKey): int {
    Newest(LastSeens(es, key))
  }

  datatype QuotaRef = QuotaRef(key: PrefixKey, age: int)
  function RefKey(r: QuotaRef): PrefixKey { r.key }

  /** The quota comparator. The tenant is constant among the compared keys. */
  predicate Older(x: QuotaRef, y: QuotaRef) {
    if x.age != y.age then x.age < y.age
    else if x.key.model != y.key.model then Less(x.key.model, y.key.model)
    else if x.key.hashScheme != y.key.hashScheme then Less(x.key.hashScheme, y.key.hashScheme)
    else if x.key.adapter != y.key.adapter then Less(x.key.adapter, y.key.adapter)
    else Less(x.key.prefixHash, y.key.prefixHash)
  }

  ghost function QuotaRefOf(es: Entries, k: PrefixKey): QuotaRef {
    QuotaRef(k, Age(es, k))
  }

  ghost function QuotaRefs(es: Entries, tenant: string): set<QuotaRef> {
    set k | k in TenantKeys(es.Keys, tenant) :: QuotaRefOf(es, k)
  }

  ghost function QuotaVictims(es: Entries, tenant: string, budget: int): set<PrefixKey> {
    if budget < 0 then {}
    else Image(Lowest(Older, QuotaRefs(es, tenant), |TenantKeys(es.Keys, tenant)| - budget), RefKey)
  }

  ghost function WithKeys(held: set<Held>, keys: set<PrefixKey>): set<Held> {
    set h | h in held && h.key in keys
  }

  ghost function QuotaF(es: Entries, tenant: string, budget: int): Entries {
    es - WithKeys(es.Keys, QuotaVictims(es, tenant, budget))
  }

  // ---- Cap: the globally least useful entries go ----

  datatype CapRef = CapRef(key: PrefixKey, replica: string, count: int, lastSeen: int)
  function HeldOfRef(r: CapRef): Held { Held(r.key, r.replica) }

  predicate KeyLess(x: PrefixKey, y: PrefixKey) {
    if x.tenant != y.tenant then Less(x.tenant, y.tenant)
    else if x.model != y.model then Less(x.model, y.model)
    else if x.hashScheme != y.hashScheme then Less(x.hashScheme, y.hashScheme)
    else if x.adapter != y.adapter then Less(x.adapter, y.adapter)
    else Less(x.prefixHash, y.prefixHash)
  }

  /** The cap comparator: effective count, then recency, then identity. */
  predicate EvictFirst(x: CapRef, y: CapRef) {
    if x.count != y.count then x.count < y.count
    else if x.lastSeen != y.lastSeen then x.lastSeen < y.lastSeen
    else if x.key != y.key then KeyLess(x.key, y.key)
    else Less(x.replica, y.replica)
  }

  /** Frequency counts only where the tenant's policy asks for it. */
  function EffectiveCount(e: Entry, pol: Policies, tenant: string): int {
    if pol.IsLFU(tenant) then e.hits else 0
  }

  ghost function CapRefOf(es: Entries, pol: Policies, h: Held): CapRef
    requires h in es
  {
    CapRef(h.key, h.replica, EffectiveCount(es[h], pol, h.key.tenant), es[h].lastSeen)
  }

  ghost function CapRefs(es: Entries, pol: Policies, reserved: set<string>): set<CapRef> {
    set h | h in Unreserved(es.Keys, reserved) :: CapRefOf(es, pol, h)
  }

  ghost function CapVictims(es: Entries, pol: Policies, cfg: Config): set<Held> {
    if cfg.maxEntries <= 0 then {}
    else
      Image(Lowest(EvictFirst, CapRefs(es, pol, cfg.reserved), |Unreserved(es.Keys, cfg.reserved)| - cfg.maxEntries),
            HeldOfRef)
  }

  ghost function CapF(es: Entries, pol: Policies, cfg: Config): Entries {
    es - CapVictims(es, pol, cfg)
  }

  // ---- Operations ----

  ghost function IngestStats(ss: map<StatsKey, StatEntry>, u: Update, ts: int): map<StatsKey, StatEntry> {
    if u.stats.None? then ss
    else ss[StatsKey(u.tenant, u.model, u.replica) := StatEntry(u.stats.value.(replica := u.replica), ts, ts)]
  }

  ghost function IngestF(st: State, u: Update, now: int, pol: Policies, cfg: Config): State {
    var ts := TimeOf(u.timestamp, now);
    var written := PutAll(st.entries, Writes(u), u.replica, ts);
    var quota := pol.TenantQuota(u.tenant);
    var fair := if quota.Some? then QuotaF(written, u.tenant, quota.value) else written;
    State(CapF(fair, pol, cfg), IngestStats(st.stats, u, ts))
  }

  /** The prefix keys an event takes from its replica. An eviction without an
      adapter takes the hash from every adapter partition. */
  predicate Targets(ev: Event, key: PrefixKey) {
    && key.tenant == ev.tenant && key.model == ev.model
    && match ev.kind
       case PrefixEvicted => key.prefixHash == ev.prefixHash && (ev.adapter == "" || key.adapter == ev.adapter)
       case AllCleared => true
       case _ => false
  }

  /** The entries an event explicitly removes. */
  predicate Erases(ev: Event, h: Held) {
    h.replica == ev.replica && Targets(ev, h.key)
  }

  ghost function EventStats(ss: map<StatsKey, StatEntry>, ev: Event, now: int): map<StatsKey, StatEntry> {
    var sk := StatsKey(ev.tenant, ev.model, ev.replica);
    match ev.kind
    case ReplicaUpdated => if sk in ss then ss[sk := ss[sk].(lastSeen := TimeOf(ev.timestamp, now))] else ss
    case AllCleared => ss - {sk}
    case _ => ss
  }

  ghost function EventF(st: State, ev: Event, now: int): State {
    State(map h | h in st.entries && !Erases(ev, h) :: st.entries[h], EventStats(st.stats, ev, now))
  }

  predicate Expired(lastSeen: int, now: int, ttl: int) {
    ttl > 0 && now - lastSeen >= ttl
  }

  ghost function SweepF(st: State, now: int, pol: Policies, cfg: Config): State {
    State(
      map h | h in st.entries && !Expired(st.entries[h].lastSeen, now, TtlFor(cfg, pol, h.key.tenant)) :: st.entries[h],
      map s | s in st.stats && !Expired(st.stats[s].lastSeen, now, TtlFor(cfg, pol, s.tenant)) :: st.stats[s])
  }
}
