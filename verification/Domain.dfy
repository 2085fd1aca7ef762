/** Domain types of the cache-state index (internal/index/types.go, index.go).

    Times and durations are integers in nanoseconds; `0` is Go's zero time, which
    the code reads as "unset". Token counts are `int32` in Go: sums that can wrap
    go through `Int32`. Engine-opaque hash bytes are strings, as the index itself
    turns them into map keys. Rates and scores are reals.
 */
module Domain {
  datatype Option<+T> = None | Some(value: T)

  const SECOND := 1_000_000_000
  const MINUTE := 60 * SECOND
  const DEFAULT_TTL := 30 * MINUTE

  type int32 = x: int | -0x8000_0000 <= x <= 0x7fff_ffff

  /** Two's-complement wrap-around of a 32-bit sum. */
  function Int32(x: int): (r: int32)
    ensures (x - r) % 0x1_0000_0000 == 0
    ensures -0x8000_0000 <= x <= 0x7fff_ffff ==> r == x
  {
    (x + 0x8000_0000) % 0x1_0000_0000 - 0x8000_0000
  }

  datatype PrefixKey = PrefixKey(tenant: string, model: string, hashScheme: string,
                                 adapter: string, prefixHash: string)
  /** One stored entry: a replica's hold on one prefix key. */
  datatype Held = Held(key: PrefixKey, replica: string)
  datatype StatsKey = StatsKey(tenant: string, model: string, replica: string)
  datatype ModelKey = ModelKey(tenant: string, model: string)
  datatype ScopeKey = ScopeKey(tenant: string, model: string, hashScheme: string)

  function TenantOf(k: PrefixKey): string { k.tenant }
  function ModelOf(k: PrefixKey): ModelKey { ModelKey(k.tenant, k.model) }
  function ScopeOf(h: Held): ScopeKey { ScopeKey(h.key.tenant, h.key.model, h.key.hashScheme) }
  function ReplicaOf(h: Held): string { h.replica }
  function StatsModel(s: StatsKey): ModelKey { ModelKey(s.tenant, s.model) }
  function StatsReplica(s: StatsKey): string { s.replica }

  // Cache tiers, most local first. Unknown colder tiers keep their raw value.
  const TIER_UNSPECIFIED := 0
  const TIER_T1 := 1

  /** The colder of two tiers; an unspecified tier poisons the result. */
  function WorstTier(a: int, b: int): int {
    if a == TIER_UNSPECIFIED || b == TIER_UNSPECIFIED then TIER_UNSPECIFIED
    else if a > b then a else b
  }

  datatype ReplicaStats = ReplicaStats(replica: string, cacheMemoryBytes: int, hitRate: real, pressure: real,
                                       t2HitTokens: int, t2QueryTokens: int)
  /** `lastSeen` is liveness; `statsReported` is when the values were reported. */
  datatype StatEntry = StatEntry(stats: ReplicaStats, lastSeen: int, statsReported: int)

  datatype PrefixRef = PrefixRef(prefixHash: string, tokenCount: int32, blockHashes: seq<string>,
                                 blockTokenCounts: seq<int32>, tier: int, adapter: string)
  datatype Update = Update(replica: string, model: string, tenant: string, hashScheme: string, adapter: string,
                           timestamp: int, prefixes: seq<PrefixRef>, stats: Option<ReplicaStats>)

  datatype EventType = PrefixAdded | PrefixEvicted | ReplicaUpdated | AllCleared
  datatype Event = Event(kind: EventType, replica: string, model: string, tenant: string, prefixHash: string,
                         adapter: string, timestamp: int)

  datatype LookupRequest = LookupRequest(model: string, tenant: string, hashScheme: string, adapter: string,
                                         prefixHash: string, blockHashes: seq<string>, blockTokenCounts: seq<int32>,
                                         ttftBudgetMs: int)
  datatype ReplicaScore = ReplicaScore(replica: string, score: real, matched: int32, hitProb: real, tier: int)

  datatype Strategy =
    | NoStrategy | PrefixMatch | TenantHot
    | UnknownTenant | UnknownModel | UnknownHashScheme

  datatype RankerConfig = RankerConfig(pressureWeight: real, sloTightTTFTMs: int, sloTightBias: real,
                                       tenantHotMinHitRate: real, tenantHotMaxAge: int)
  /** What `New` fixes for the lifetime of an index. */
  datatype Config = Config(ttl: int, maxEntries: int, reserved: set<string>, ranker: RankerConfig)
}
