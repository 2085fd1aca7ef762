/** What a lookup returns, in the terms of the stored entries, the request and the
    reported stats (internal/index/lookup.go:82-364, 459-571, 726-742,
    internal/index/ranking.go:110-195): who matches, with how many tokens and how
    fresh, what the score is a product of, and which way each factor pulls.
 */
module Scoring {
  import opened Domain
  import opened IndexModel
  import opened LookupModel
  import opened Runs
  import opened Reports
  import opened Routing

  // ---- The factors ----

  /** Freshness falls linearly with age, from one to zero at the time to live. */
  lemma FreshnessIsLinear(now: int, lastSeen: int, ttl: int)
    ensures ttl <= 0 ==> FreshnessAt(now, lastSeen, ttl) == 0.0
    ensures ttl > 0 ==>
              FreshnessAt(now, lastSeen, ttl) * ttl as real ==
              if now <= lastSeen then ttl as real else if now - lastSeen >= ttl then 0.0 else (ttl - (now - lastSeen)) as real
  {
    if ttl > 0 && lastSeen < now < lastSeen + ttl {
      RatioTimes(now - lastSeen, ttl);
    }
  }

  lemma RatioTimes(a: int, b: int)
    requires 0 <= a < b
    ensures Ratio(a, b) * b as real == a as real
  {
    var r := a as real / b as real;
    assert r * b as real == a as real;
  }

  /** A more recently seen entry is never less fresh. */
  lemma SeenLaterIsFresher(now: int, a: int, b: int, ttl: int)
    requires a <= b
    ensures FreshnessAt(now, a, ttl) <= FreshnessAt(now, b, ttl)
  {
    if ttl > 0 && a < b < now && now - a < ttl {
      QuotientMonotone((now - b) as real, (now - a) as real, ttl as real);
    }
  }

  /** Pressure takes its weighted share off, within the unit interval. */
  lemma PressureTakesItsShare(pressure: real, weight: real)
    ensures var f := PressureFactorAt(pressure, weight);
            && (0.0 <= weight * pressure <= 1.0 ==> f + weight * pressure == 1.0)
            && (weight * pressure > 1.0 ==> f == 0.0) && (weight * pressure < 0.0 ==> f == 1.0)
  {}

  /** The discount is the share of serving replicas that hold less. */
  lemma DiscountIsTheShareOfOthers(matching: int, total: int)
    requires 0 <= matching <= total
    ensures total >= 2 ==> DistinguishingPower(matching, total) * total as real == (total - matching) as real
    ensures total <= 1 ==> DistinguishingPower(matching, total) == 1.0
  {
    if total >= 2 && matching < total {
      RatioTimes(matching, total);
    }
  }

  /** The bias applies exactly to requests with a tight budget, when configured. */
  lemma BiasIsForTightBudgets(ranker: RankerConfig, ttftMs: int)
    ensures SloCoefficient(ranker, ttftMs) ==
            if 0 < ttftMs < ranker.sloTightTTFTMs && ranker.sloTightBias > 0.0 then ranker.sloTightBias else 0.0
  {}

  // ---- Who matches ----

  /** The replica holds the hash in the request's own partition, seen less than the time
      to live ago. */
  predicate FreshAt(q: Query, r: string, hash: string) {
    var h := Held(PrefixKey(q.req.tenant, q.req.model, q.req.hashScheme, q.req.adapter, hash), r);
    q.ttl > 0 && h in q.es && q.now - q.es[h].lastSeen < q.ttl
  }

  /** The leading blocks the replica holds are exactly the first `n`. */
  ghost predicate HoldsFirst(q: Query, r: string, n: nat) {
    && n <= |q.req.blockHashes| && (forall i :: 0 <= i < n ==> FreshAt(q, r, q.req.blockHashes[i]))
    && (n < |q.req.blockHashes| ==> !FreshAt(q, r, q.req.blockHashes[n]))
  }

  lemma HoldsIsFresh(q: Query, r: string, i: nat)
    ensures Holds(q, r, i) <==> i < |q.req.blockHashes| && FreshAt(q, r, q.req.blockHashes[i])
    ensures ExactMatches(q, r) <==> FreshAt(q, r, q.req.prefixHash)
  {}

  lemma RunIsHoldsFirst(q: Query, r: string)
    ensures HoldsFirst(q, r, RunLen(q, r))
  {
    hide FreshAt, Holds, RunLen, ExactMatches;
    RunLenCharacterized(q, r, RunLen(q, r));
    forall i: nat ensures Holds(q, r, i) <==> i < |q.req.blockHashes| && FreshAt(q, r, q.req.blockHashes[i]) {
      HoldsIsFresh(q, r, i);
    }
  }

  /** A chain matches a replica iff it freshly holds some leading blocks that are worth
      something; it is matched with their sum, in 32 bits, and is as fresh as the one
      seen longest ago. */
  lemma ChainMatchExactly(q: Query, stats: map<StatsKey, StatEntry>, ranker: RankerConfig, r: string) returns (n: nat)
    requires q.req.hashScheme != "" && |q.req.blockHashes| == |q.req.blockTokenCounts| > 0
    ensures HoldsFirst(q, r, n) && (r in LookupF(q, stats, ranker) <==> n > 0 && RunningSum(q.req.blockTokenCounts, n) > 0)
    ensures r in LookupF(q, stats, ranker) ==>
              var sc := LookupF(q, stats, ranker)[r];
              && sc.replica == r && sc.matched == RunningSum(q.req.blockTokenCounts, n) && HoldsAll(q, r, n) && sc.tier == RunTier(q, r, n)
              && (PlainSum(q.req.blockTokenCounts, n) - sc.matched) % 0x1_0000_0000 == 0
              && (exists i :: 0 <= i < n && sc.hitProb == FreshnessAt(q.now, SeenAt(q, r, i), q.ttl))
              && (forall i :: 0 <= i < n ==> sc.hitProb <= FreshnessAt(q.now, SeenAt(q, r, i), q.ttl))
  {
    hide ServingSet, FreshnessAt, RunLen, BaseScore, DistinguishingPower, RunTier, Oldest, RunningSum, PlainSum;
    n := RunLen(q, r);
    RunIsHoldsFirst(q, r);
    RunLenCharacterized(q, r, n);
    SumIsTotal(q.req.blockTokenCounts, n);
    if n > 0 {
      assert Holds(q, r, 0);
      MatchesAreServing(q, r);
      OldestIsLeast(q, r, n);
      var o := Oldest(q, r, n);
      forall i | 0 <= i < n ensures o <= SeenAt(q, r, i) && FreshnessAt(q.now, o, q.ttl) <= FreshnessAt(q.now, SeenAt(q, r, i), q.ttl) {
        assert Holds(q, r, i);
        SeenLaterIsFresher(q.now, o, SeenAt(q, r, i), q.ttl);
      }
      var i :| 0 <= i < n && Holds(q, r, i) && o == q.es[Block(q.req, i, r)].lastSeen;
      assert o == SeenAt(q, r, i);
    }
  }

  /** When block `i` was last seen at the replica. */
  function SeenAt(q: Query, r: string, i: int): int {
    if 0 <= i < |q.req.blockHashes| && Held(PrefixKey(q.req.tenant, q.req.model, q.req.hashScheme, q.req.adapter, q.req.blockHashes[i]), r) in q.es then
      q.es[Held(PrefixKey(q.req.tenant, q.req.model, q.req.hashScheme, q.req.adapter, q.req.blockHashes[i]), r)].lastSeen
    else 0
  }

  /** An exact lookup matches a replica iff it freshly holds the prefix, with the
      tokens, tier and freshness of that entry. */
  lemma ExactMatchExactly(q: Query, stats: map<StatsKey, StatEntry>, ranker: RankerConfig, r: string)
    requires q.req.hashScheme != "" && q.req.blockHashes == [] && q.req.blockTokenCounts == []
    ensures r in LookupF(q, stats, ranker) <==> FreshAt(q, r, q.req.prefixHash)
    ensures r in LookupF(q, stats, ranker) ==>
              var e := q.es[Held(PrefixKey(q.req.tenant, q.req.model, q.req.hashScheme, q.req.adapter, q.req.prefixHash), r)];
              var sc := LookupF(q, stats, ranker)[r];
              sc.replica == r && sc.matched == e.tokens && sc.tier == e.tier && sc.hitProb == FreshnessAt(q.now, e.lastSeen, q.ttl)
  {
    hide ServingSet, FreshnessAt, BaseScore, DistinguishingPower;
    HoldsIsFresh(q, r, 0);
    MatchesAreServing(q, r);
  }

  /** A lookup without a scheme, or with arrays that disagree, matches nobody. */
  lemma MalformedMatchesNobody(q: Query, stats: map<StatsKey, StatEntry>, ranker: RankerConfig)
    requires q.req.hashScheme == "" || |q.req.blockHashes| != |q.req.blockTokenCounts|
    ensures LookupF(q, stats, ranker) == map[]
  {}

  /** A replica serves the scope iff it holds some prefix of that tenant, model and
      scheme, fresh or not, under any adapter. */
  lemma ServingExactly(q: Query, r: string)
    ensures r in ServingSet(q) <==>
            exists h :: h in q.es && h.replica == r && h.key.tenant == q.req.tenant && h.key.model == q.req.model
                        && h.key.hashScheme == q.req.hashScheme
  {
    var held := ScopeHeld(q.es.Keys, ReqScope(q.req));
    if r in ServingSet(q) {
      var h :| h in held && ReplicaOf(h) == r;
    }
    if h :| h in q.es && h.replica == r && h.key.tenant == q.req.tenant && h.key.model == q.req.model
            && h.key.hashScheme == q.req.hashScheme {
      assert h in held && ReplicaOf(h) == r;
    }
  }

  // ---- What a score is made of ----

  /** The pressure last reported by the replica, while the report is fresh. */
  function ReportedPressure(q: Query, stats: map<StatsKey, StatEntry>, r: string): real {
    var sk := StatsKey(q.req.tenant, q.req.model, r);
    if sk in stats && q.ttl > 0 && q.now - stats[sk].statsReported < q.ttl then stats[sk].stats.pressure else 0.0
  }

  /** The base score is tokens times freshness, less pressure, with the bias for tight
      budgets on freshness. */
  lemma BaseIsTheProduct(tokens: int, freshness: real, pressure: real, ranker: RankerConfig, ttftMs: int)
    ensures var f, b := PressureFactorAt(pressure, ranker.pressureWeight), SloCoefficient(ranker, ttftMs);
            BaseScore(tokens, freshness, pressure, ranker, ttftMs) == tokens as real * freshness * f * (1.0 + freshness * b)
  {
    hide PressureFactorAt, SloCoefficient;
  }

  lemma BaseOf(q: Query, stats: map<StatsKey, StatEntry>, ranker: RankerConfig, r: string)
    ensures |q.req.blockHashes| == |q.req.blockTokenCounts| && r in ChainBase(q, stats, ranker) ==>
              var sc := ChainBase(q, stats, ranker)[r];
              sc.score == BaseScore(sc.matched, sc.hitProb, ReportedPressure(q, stats, r), ranker, q.req.ttftBudgetMs)
    ensures r in ExactBase(q, stats, ranker) ==>
              var sc := ExactBase(q, stats, ranker)[r];
              sc.score == BaseScore(sc.matched, sc.hitProb, ReportedPressure(q, stats, r), ranker, q.req.ttftBudgetMs)
  {
    hide ServingSet, FreshnessAt, ChainMatches, RunLen, BaseScore, ReportedPressure, PressureOf, RunTier, Oldest;
    PressureIsReported(q, stats, r);
  }

  lemma DiscountAt(m: Scores, total: int, r: string)
    requires r in m
    ensures var d := Discounted(m, total);
            && d[r].matched == m[r].matched && d[r].hitProb == m[r].hitProb
            && d[r].score == m[r].score * DistinguishingPower(|set s | s in d && d[s].matched >= d[r].matched|, total)
  {
    hide DistinguishingPower;
    var d := Discounted(m, total);
    assert AtLeastAsDeep(m, m[r].matched) == set s | s in d && d[s].matched >= d[r].matched;
  }

  lemma UniformAt(m: Scores, factor: real, r: string)
    requires r in m
    ensures var d := map s | s in m :: Scale(m[s], factor);
            d.Keys == m.Keys && d[r].matched == m[r].matched && d[r].hitProb == m[r].hitProb && d[r].score == m[r].score * factor
  {}

  /** The discount a matched replica gets: over a chain for those at least as deep, else
      for all that match. */
  ghost function HoldersAsDeep(m: Scores, r: string, chain: bool): int
    requires r in m
  {
    if chain then |set s | s in m && m[s].matched >= m[r].matched| else |m.Keys|
  }

  /** A score is the base score times the share of serving replicas that match less
      deeply. */
  lemma ScoreIsDiscounted(q: Query, stats: map<StatsKey, StatEntry>, ranker: RankerConfig, r: string)
    requires r in LookupF(q, stats, ranker)
    ensures var m := LookupF(q, stats, ranker);
            m[r].score == BaseScore(m[r].matched, m[r].hitProb, ReportedPressure(q, stats, r), ranker, q.req.ttftBudgetMs)
                          * DistinguishingPower(HoldersAsDeep(m, r, ChainBearing(q.req)), |ServingSet(q)|)
  {
    hide ServingSet, DistinguishingPower, BaseScore, ReportedPressure, ChainBase, ExactBase, Discounted, Scale;
    BaseOf(q, stats, ranker, r);
    if ChainBearing(q.req) {
      DiscountKeys(ChainBase(q, stats, ranker), |ServingSet(q)|);
      DiscountAt(ChainBase(q, stats, ranker), |ServingSet(q)|, r);
    } else {
      var base := ExactBase(q, stats, ranker);
      assert |base| == |base.Keys|;
      UniformAt(base, DistinguishingPower(|base|, |ServingSet(q)|), r);
    }
  }

  lemma DiscountKeys(m: Scores, total: int)
    ensures Discounted(m, total).Keys == m.Keys
  {}

  lemma PressureIsReported(q: Query, stats: map<StatsKey, StatEntry>, r: string)
    ensures PressureOf(q, stats, r) == ReportedPressure(q, stats, r)
  {}

  // ---- Warm replicas ----

  /** Tenant-hot names exactly the replicas that serve the scope and whose stats for the
      tenant and model were reported recently and are good enough. It claims no tokens. */
  lemma HotExactly(q: Query, stats: map<StatsKey, StatEntry>, ranker: RankerConfig, r: string)
    ensures r in HotF(q, stats, ranker) <==>
            var sk := StatsKey(q.req.tenant, q.req.model, r);
            && ranker.tenantHotMaxAge > 0 && q.req.hashScheme != "" && r in ServingSet(q) && sk in stats
            && q.now - stats[sk].statsReported < ranker.tenantHotMaxAge && stats[sk].stats.hitRate >= ranker.tenantHotMinHitRate
    ensures r in HotF(q, stats, ranker) ==>
              var st, sc := stats[StatsKey(q.req.tenant, q.req.model, r)], HotF(q, stats, ranker)[r];
              sc.replica == r && sc.matched == 0 && sc.hitProb == st.stats.hitRate && sc.tier == 0
  {
    hide ServingSet, FreshnessAt, PressureFactorAt, SloCoefficient;
  }

  /** Its score is the hit rate times how recent it is, less pressure, with the same
      bias. */
  lemma HotScoreIsTheProduct(stats: map<StatsKey, StatEntry>, req: LookupRequest, now: int, ranker: RankerConfig, r: string)
    requires Warm(stats, req, now, ranker, r)
    ensures var st := stats[StatsKey(req.tenant, req.model, r)];
            var recency, f, b := FreshnessAt(now, st.statsReported, ranker.tenantHotMaxAge),
                                 PressureFactorAt(st.stats.pressure, ranker.pressureWeight), SloCoefficient(ranker, req.ttftBudgetMs);
            HotScore(stats, req, now, ranker, r).score == st.stats.hitRate * recency * f * (1.0 + recency * b)
  {
    hide PressureFactorAt, SloCoefficient, FreshnessAt;
  }

  // ---- The diagnosis of a miss ----

  /** The diagnosis names the first of tenant, model and scheme that no stored entry
      has together with those before it, and nothing while nothing is stored. */
  lemma MissExactly(es: Entries, req: LookupRequest)
    ensures var tenant := exists h :: h in es && h.key.tenant == req.tenant;
            var model := exists h :: h in es && h.key.tenant == req.tenant && h.key.model == req.model;
            var scheme := exists h :: h in es && h.key.tenant == req.tenant && h.key.model == req.model && h.key.hashScheme == req.hashScheme;
            && (MissF(es, req) == UnknownTenant <==> es != map[] && !tenant)
            && (MissF(es, req) == UnknownModel <==> tenant && !model)
            && (MissF(es, req) == UnknownHashScheme <==> model && !scheme)
            && (MissF(es, req) == NoStrategy <==> es == map[] || scheme)
  {}
}
