/** What a lookup means (internal/index/lookup.go, ranking.go), stated on the
    stored entries with no reference to how the walk is organised.
 */
module LookupModel {
  import opened Domain
  import opened IndexModel

  // ---- Score factors ----

  /** A proper fraction. */
  function Ratio(a: int, b: int): (r: real)
    requires 0 <= a < b
    ensures 0.0 <= r < 1.0
    ensures a > 0 <==> r > 0.0
  {
    var r := a as real / b as real;
    assert r * b as real == a as real;
    r
  }

  /** Decays linearly from 1 (just seen) to 0 (a time to live old). */
  function FreshnessAt(now: int, lastSeen: int, ttl: int): (r: real)
    ensures 0.0 <= r <= 1.0
    ensures r > 0.0 <==> ttl > 0 && now - lastSeen < ttl
  {
    if ttl <= 0 then 0.0
    else if now - lastSeen <= 0 then 1.0
    else if now - lastSeen >= ttl then 0.0
    else 1.0 - Ratio(now - lastSeen, ttl)
  }

  function PressureFactorAt(pressure: real, weight: real): (r: real)
    ensures 0.0 <= r <= 1.0
  {
    var f := 1.0 - weight * pressure;
    if f < 0.0 then 0.0 else if f > 1.0 then 1.0 else f
  }

  /** The bias a tight time-to-first-token budget puts on freshness. */
  function SloCoefficient(ranker: RankerConfig, ttftMs: int): (r: real)
    ensures r >= 0.0
  {
    if ranker.sloTightTTFTMs <= 0 || ranker.sloTightBias <= 0.0 then 0.0
    else if ttftMs <= 0 || ttftMs >= ranker.sloTightTTFTMs then 0.0
    else ranker.sloTightBias
  }

  /** One minus the fraction of serving replicas that hold as much. */
  function DistinguishingPower(matching: int, total: int): (r: real)
    ensures 0.0 <= r <= 1.0
    ensures r == 0.0 <==> 2 <= total <= matching
  {
    if total <= 1 || matching < 0 then 1.0
    else if matching >= total then 0.0
    else 1.0 - Ratio(matching, total)
  }

  lemma QuotientMonotone(x: real, y: real, t: real)
    requires x <= y && t > 0.0
    ensures x / t <= y / t
  {}

  lemma DistinguishingPowerAntitone(a: int, b: int, total: int)
    requires 0 <= a <= b
    ensures DistinguishingPower(a, total) >= DistinguishingPower(b, total)
  {
    if 2 <= total && b < total {
      QuotientMonotone(a as real, b as real, total as real);
    }
  }

  // ---- The leading run of one replica ----

  /** One lookup: the entries it observes, the request, the clock and the TTL. */
  datatype Query = Query(es: Entries, req: LookupRequest, now: int, ttl: int)

  function ReqScope(req: LookupRequest): ScopeKey {
    ScopeKey(req.tenant, req.model, req.hashScheme)
  }

  function KeyFor(req: LookupRequest, hash: string): PrefixKey {
    PrefixKey(req.tenant, req.model, req.hashScheme, req.adapter, hash)
  }

  function Block(req: LookupRequest, i: nat, replica: string): Held
    requires i < |req.blockHashes|
  {
    Held(KeyFor(req, req.blockHashes[i]), replica)
  }

  predicate IsFresh(q: Query, e: Entry) {
    FreshnessAt(q.now, e.lastSeen, q.ttl) > 0.0
  }

  /** The replica holds block `i` of the request and the hold is fresh. */
  predicate Holds(q: Query, replica: string, i: nat) {
    && i < |q.req.blockHashes|
    && Block(q.req, i, replica) in q.es
    && IsFresh(q, q.es[Block(q.req, i, replica)])
  }

  ghost predicate HoldsAll(q: Query, replica: string, n: nat) {
    forall i :: 0 <= i < n ==> Holds(q, replica, i)
  }

  function RunFrom(q: Query, replica: string, i: nat): nat
    decreases |q.req.blockHashes| - i
  {
    if Holds(q, replica, i) then RunFrom(q, replica, i + 1) else i
  }

  /** The length of the replica's leading run of present and fresh blocks. */
  function RunLen(q: Query, replica: string): nat {
    RunFrom(q, replica, 0)
  }

  lemma {:induction false} RunFromMaximal(q: Query, replica: string, i: nat)
    requires HoldsAll(q, replica, i)
    ensures i <= RunFrom(q, replica, i)
    ensures HoldsAll(q, replica, RunFrom(q, replica, i)) && !Holds(q, replica, RunFrom(q, replica, i))
    decreases |q.req.blockHashes| - i
  {
    if Holds(q, replica, i) {
      RunFromMaximal(q, replica, i + 1);
    }
  }

  /** `n` is the run length iff every earlier block is held and block `n` is not. */
  lemma RunLenCharacterized(q: Query, replica: string, n: nat)
    ensures RunLen(q, replica) == n <==> HoldsAll(q, replica, n) && !Holds(q, replica, n)
    ensures RunLen(q, replica) <= |q.req.blockHashes|
    ensures n <= RunLen(q, replica) <==> HoldsAll(q, replica, n)
  {
    RunFromMaximal(q, replica, 0);
    var m := RunLen(q, replica);
    assert m < n ==> !HoldsAll(q, replica, n);
    assert m > 0 ==> Holds(q, replica, m - 1);
  }

  // ---- What a run of `n` blocks is worth ----

  function Oldest(q: Query, replica: string, n: nat): int
    requires 0 < n && HoldsAll(q, replica, n)
  {
    assert Holds(q, replica, n - 1);
    var seen := q.es[Block(q.req, n - 1, replica)].lastSeen;
    if n == 1 then seen
    else
      var before := Oldest(q, replica, n - 1);
      if seen < before then seen else before
  }

  function RunTier(q: Query, replica: string, n: nat): int
    requires 0 < n && HoldsAll(q, replica, n)
  {
    assert Holds(q, replica, n - 1);
    var tier := q.es[Block(q.req, n - 1, replica)].tier;
    if n == 1 then tier else WorstTier(RunTier(q, replica, n - 1), tier)
  }

  /** `Oldest` is the least last-seen time over the run. */
  lemma {:induction false} OldestIsLeast(q: Query, replica: string, n: nat)
    requires 0 < n && HoldsAll(q, replica, n)
    ensures forall i :: 0 <= i < n ==> Holds(q, replica, i) && Oldest(q, replica, n) <= q.es[Block(q.req, i, replica)].lastSeen
    ensures exists i :: 0 <= i < n && Holds(q, replica, i) && Oldest(q, replica, n) == q.es[Block(q.req, i, replica)].lastSeen
  {
    assert Holds(q, replica, n - 1);
    if n > 1 {
      OldestIsLeast(q, replica, n - 1);
    }
  }

  /** `RunTier` is the coldest tier of the run, unspecified iff some block's is. */
  lemma {:induction false} RunTierIsColdest(q: Query, replica: string, n: nat)
    requires 0 < n && HoldsAll(q, replica, n)
    requires forall i :: 0 <= i < n ==> Holds(q, replica, i) && q.es[Block(q.req, i, replica)].tier >= 0
    ensures RunTier(q, replica, n) >= 0
    ensures RunTier(q, replica, n) == TIER_UNSPECIFIED <==>
            exists i :: 0 <= i < n && Holds(q, replica, i) && q.es[Block(q.req, i, replica)].tier == TIER_UNSPECIFIED
    ensures RunTier(q, replica, n) != TIER_UNSPECIFIED ==>
            && (forall i :: 0 <= i < n ==> Holds(q, replica, i) && q.es[Block(q.req, i, replica)].tier <= RunTier(q, replica, n))
            && (exists i :: 0 <= i < n && Holds(q, replica, i) && q.es[Block(q.req, i, replica)].tier == RunTier(q, replica, n))
  {
    assert Holds(q, replica, n - 1);
    if n > 1 {
      RunTierIsColdest(q, replica, n - 1);
    }
  }

  /** The weakest block decides freshness, and no block of a run is stale, so
      re-checking the run as a whole can never drop it. */
  lemma RunStaysFresh(q: Query, replica: string, n: nat)
    requires 0 < n && HoldsAll(q, replica, n)
    ensures FreshnessAt(q.now, Oldest(q, replica, n), q.ttl) > 0.0
  {
    OldestIsLeast(q, replica, n);
  }

  // ---- Scores ----

  /** Pressure counts only while the reported values themselves are fresh. */
  function PressureAt(stats: map<StatsKey, StatEntry>, sk: StatsKey, now: int, ttl: int): real {
    if sk in stats && FreshnessAt(now, stats[sk].statsReported, ttl) > 0.0 then stats[sk].stats.pressure else 0.0
  }

  function PressureOf(q: Query, stats: map<StatsKey, StatEntry>, replica: string): real {
    PressureAt(stats, StatsKey(q.req.tenant, q.req.model, replica), q.now, q.ttl)
  }

  /** The score before it is discounted by distinguishing power. */
  function BaseScore(tokens: int, freshness: real, pressure: real, ranker: RankerConfig, ttftMs: int): real {
    tokens as real * freshness * PressureFactorAt(pressure,
    ranker.pressureWeight) * (1.0 + freshness * SloCoefficient(ranker, ttftMs))
  }

  type Scores = map<string, ReplicaScore>

  ghost function ChainMatched(q: Query, replica: string): int32
    requires |q.req.blockHashes| == |q.req.blockTokenCounts|
  {
    RunLenCharacterized(q, replica, RunLen(q, replica));
    RunningSum(q.req.blockTokenCounts, RunLen(q, replica))
  }

  /** A replica matches iff its leading run is non-empty and worth something. */
  ghost predicate ChainMatches(q: Query, replica: string)
    requires |q.req.blockHashes| == |q.req.blockTokenCounts|
  {
    RunLen(q, replica) > 0 && ChainMatched(q, replica) > 0
  }

  ghost function ChainScoreOf(q: Query, stats: map<StatsKey, StatEntry>, ranker: RankerConfig,
                              replica: string): ReplicaScore
    requires |q.req.blockHashes| == |q.req.blockTokenCounts|
    requires RunLen(q, replica) > 0
  {
    var n := RunLen(q, replica);
    RunLenCharacterized(q, replica, n);
    var freshness := FreshnessAt(q.now, Oldest(q, replica, n), q.ttl);
    ReplicaScore(replica,
                 BaseScore(ChainMatched(q, replica), freshness, PressureOf(q, stats, replica), ranker, q.req.ttftBudgetMs),
                 ChainMatched(q, replica), freshness, RunTier(q, replica, n))
  }

  ghost function ServingSet(q: Query): set<string> {
    Serving(q.es.Keys, ReqScope(q.req))
  }

  ghost function ChainBase(q: Query, stats: map<StatsKey, StatEntry>, ranker: RankerConfig): Scores
    requires |q.req.blockHashes| == |q.req.blockTokenCounts|
  {
    map r | r in ServingSet(q) && ChainMatches(q, r) :: ChainScoreOf(q, stats, ranker, r)
  }

  /** The replicas matched at least as deeply as `r`, `r` among them. */
  ghost function AtLeastAsDeep(m: Scores, matched: int): set<string> {
    set s | s in m && m[s].matched >= matched
  }

  function Scale(sc: ReplicaScore, factor: real): ReplicaScore {
    sc.(score := sc.score * factor)
  }

  /** The naive definition of the depth-aware discount. */
  ghost function Discounted(m: Scores, total: int): Scores {
    map r | r in m :: Scale(m[r], DistinguishingPower(|AtLeastAsDeep(m, m[r].matched)|, total))
  }

  ghost function ChainScores(q: Query, stats: map<StatsKey, StatEntry>, ranker: RankerConfig): Scores
    requires |q.req.blockHashes| == |q.req.blockTokenCounts|
  {
    Discounted(ChainBase(q, stats, ranker), |ServingSet(q)|)
  }

  function ExactHeld(req: LookupRequest, replica: string): Held {
    Held(KeyFor(req, req.prefixHash), replica)
  }

  predicate ExactMatches(q: Query, replica: string) {
    ExactHeld(q.req, replica) in q.es && IsFresh(q, q.es[ExactHeld(q.req, replica)])
  }

  ghost function ExactScoreOf(q: Query, stats: map<StatsKey, StatEntry>, ranker: RankerConfig,
                              replica: string): ReplicaScore
    requires ExactMatches(q, replica)
  {
    var e := q.es[ExactHeld(q.req, replica)];
    var freshness := FreshnessAt(q.now, e.lastSeen, q.ttl);
    ReplicaScore(replica, BaseScore(e.tokens, freshness, PressureOf(q, stats, replica), ranker, q.req.ttftBudgetMs),
                 e.tokens, freshness, e.tier)
  }

  ghost function ExactBase(q: Query, stats: map<StatsKey, StatEntry>, ranker: RankerConfig): Scores {
    map r | r in ServingSet(q) && ExactMatches(q, r) :: ExactScoreOf(q, stats, ranker, r)
  }

  /** Every exact match shares the prefix, so the discount is uniform. */
  ghost function ExactScores(q: Query, stats: map<StatsKey, StatEntry>, ranker: RankerConfig): Scores {
    var m := ExactBase(q, stats, ranker);
    map r | r in m :: Scale(m[r], DistinguishingPower(|m|, |ServingSet(q)|))
  }

  predicate ChainBearing(req: LookupRequest) {
    |req.blockHashes| > 0 || |req.blockTokenCounts| > 0
  }

  /** A lookup: nothing without a scheme, nothing for a malformed chain. */
  ghost function LookupF(q: Query, stats: map<StatsKey, StatEntry>, ranker: RankerConfig): Scores {
    if q.req.hashScheme == "" then map[]
    else if ChainBearing(q.req) then
      if |q.req.blockHashes| != |q.req.blockTokenCounts| then map[] else ChainScores(q, stats, ranker)
    else ExactScores(q, stats, ranker)
  }

  lemma MatchesAreServing(q: Query, replica: string)
    ensures Holds(q, replica, 0) ==> replica in ServingSet(q)
    ensures ExactMatches(q, replica) ==> replica in ServingSet(q)
  {
    if Holds(q, replica, 0) {
      var h := Block(q.req, 0, replica);
      assert h in ScopeHeld(q.es.Keys, ReqScope(q.req)) && ReplicaOf(h) == replica;
    }
    if ExactMatches(q, replica) {
      var h := ExactHeld(q.req, replica);
      assert h in ScopeHeld(q.es.Keys, ReqScope(q.req)) && ReplicaOf(h) == replica;
    }
  }
}
