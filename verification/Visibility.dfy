/** What a public request can tell about the reserved tenant. The probe is meant to stay
    out of sight of real lookups whatever it leaves behind
    (internal/server/probe.go:282-288). Matches, warm replicas, hits and affinity picks
    do keep it out: they are those of public state alone. The diagnosis of a miss does
    not: it is withheld only while nothing at all is stored
    (internal/index/lookup.go:729), and a probe entry counts there. `MissSeesProbe`
    says exactly when that shows.
 */
module Visibility {
  import opened Domain
  import opened Policy
  import opened IndexModel
  import opened LookupModel
  import opened Ranking
  import opened Sweeps
  import opened Isolation
  import opened Bookkeeping
  import opened Lookup
  import opened Routing
  import opened Response

  /** The same lookup on the public entries. */
  ghost function PublicQuery(q: Query, reserved: set<string>): Query {
    q.(es := Public(q.es, reserved))
  }

  // ---- Matches ----

  lemma ServingPublic(es: Entries, reserved: set<string>, scope: ScopeKey)
    requires scope.tenant !in reserved
    ensures Serving(Public(es, reserved).Keys, scope) == Serving(es.Keys, scope)
  {
    var held, public := ScopeHeld(es.Keys, scope), ScopeHeld(Public(es, reserved).Keys, scope);
    assert forall h :: h in held <==> h in public;
    assert held == public;
  }

  lemma HoldsPublic(q: Query, reserved: set<string>, r: string, i: nat)
    requires q.req.tenant !in reserved
    ensures Holds(q, r, i) <==> Holds(PublicQuery(q, reserved), r, i)
  {}

  lemma PublicSubQuery(q: Query, reserved: set<string>)
    ensures SubQuery(q, PublicQuery(q, reserved))
  {}

  /** A replica's leading run has the same length and worth. */
  lemma RunPublic(q: Query, reserved: set<string>, r: string)
    requires q.req.tenant !in reserved
    ensures var q', n := PublicQuery(q, reserved), RunLen(q, r);
            && RunLen(q', r) == n && HoldsAll(q, r, n) && HoldsAll(q', r, n)
            && (n > 0 ==> Oldest(q', r, n) == Oldest(q, r, n) && RunTier(q', r, n) == RunTier(q, r, n))
  {
    hide Holds, RunLen, Oldest, RunTier;
    var q', n := PublicQuery(q, reserved), RunLen(q, r);
    RunLenCharacterized(q, r, n);
    forall i: nat ensures Holds(q, r, i) <==> Holds(q', r, i) {
      HoldsPublic(q, reserved, r, i);
    }
    RunLenCharacterized(q', r, n);
    if n > 0 {
      PublicSubQuery(q, reserved);
      SameRunSameWorth(q, q', r, n);
    }
  }

  lemma ChainScorePublic(q: Query, stats: map<StatsKey, StatEntry>, ranker: RankerConfig, reserved: set<string>, r: string)
    requires q.req.tenant !in reserved && |q.req.blockHashes| == |q.req.blockTokenCounts|
    ensures var q', stats' := PublicQuery(q, reserved), PublicStats(stats, reserved);
            && (ChainMatches(q', r) <==> ChainMatches(q, r))
            && (RunLen(q, r) > 0 ==> RunLen(q', r) > 0 && ChainScoreOf(q', stats', ranker, r) == ChainScoreOf(q, stats, ranker, r))
  {
    hide RunLen, Oldest, RunTier, Holds, FreshnessAt;
    RunPublic(q, reserved, r);
  }

  lemma ChainPublic(q: Query, stats: map<StatsKey, StatEntry>, ranker: RankerConfig, reserved: set<string>)
    requires q.req.tenant !in reserved && |q.req.blockHashes| == |q.req.blockTokenCounts|
    ensures ChainScores(PublicQuery(q, reserved), PublicStats(stats, reserved), ranker) == ChainScores(q, stats, ranker)
  {
    hide ChainMatches, ChainScoreOf, Discounted, Serving, PublicStats, Public, RunLen;
    ServingPublic(q.es, reserved, ReqScope(q.req));
    var q', stats' := PublicQuery(q, reserved), PublicStats(stats, reserved);
    assert ChainBase(q', stats', ranker) == ChainBase(q, stats, ranker) by {
      forall r
        ensures ChainMatches(q', r) <==> ChainMatches(q, r)
        ensures ChainMatches(q, r) ==> RunLen(q, r) > 0 && RunLen(q', r) > 0 && ChainScoreOf(q', stats', ranker, r) == ChainScoreOf(q, stats, ranker, r)
      {
        ChainScorePublic(q, stats, ranker, reserved, r);
        if ChainMatches(q, r) {
          MatchHasRun(q, r);
        }
      }
    }
  }

  lemma MatchHasRun(q: Query, r: string)
    requires |q.req.blockHashes| == |q.req.blockTokenCounts| && ChainMatches(q, r)
    ensures RunLen(q, r) > 0
  {}

  lemma ExactScorePublic(q: Query, stats: map<StatsKey, StatEntry>, ranker: RankerConfig, reserved: set<string>, r: string)
    requires q.req.tenant !in reserved
    ensures var q', stats' := PublicQuery(q, reserved), PublicStats(stats, reserved);
            && (ExactMatches(q', r) <==> ExactMatches(q, r))
            && (ExactMatches(q, r) ==> q'.es[ExactHeld(q.req, r)] == q.es[ExactHeld(q.req, r)] &&
                                       ExactScoreOf(q', stats', ranker, r) == ExactScoreOf(q, stats, ranker, r))
  {
    hide FreshnessAt, BaseScore;
  }

  lemma ExactPublic(q: Query, stats: map<StatsKey, StatEntry>, ranker: RankerConfig, reserved: set<string>)
    requires q.req.tenant !in reserved
    ensures ExactScores(PublicQuery(q, reserved), PublicStats(stats, reserved), ranker) == ExactScores(q, stats, ranker)
  {
    hide ExactMatches, ExactScoreOf, Serving, PublicStats, Public, DistinguishingPower;
    ServingPublic(q.es, reserved, ReqScope(q.req));
    var q', stats' := PublicQuery(q, reserved), PublicStats(stats, reserved);
    assert ExactBase(q', stats', ranker) == ExactBase(q, stats, ranker) by {
      forall r
        ensures ExactMatches(q', r) <==> ExactMatches(q, r)
        ensures ExactMatches(q, r) ==> ExactScoreOf(q', stats', ranker, r) == ExactScoreOf(q, stats, ranker, r)
      {
        ExactScorePublic(q, stats, ranker, reserved, r);
      }
    }
  }

  /** A public lookup returns what it would return on public state. */
  lemma LookupPublic(q: Query, stats: map<StatsKey, StatEntry>, ranker: RankerConfig, reserved: set<string>)
    requires q.req.tenant !in reserved
    ensures LookupF(PublicQuery(q, reserved), PublicStats(stats, reserved), ranker) == LookupF(q, stats, ranker)
  {
    hide ChainScores, ExactScores, Public, PublicStats;
    if ChainBearing(q.req) && |q.req.blockHashes| == |q.req.blockTokenCounts| {
      ChainPublic(q, stats, ranker, reserved);
    } else if !ChainBearing(q.req) {
      ExactPublic(q, stats, ranker, reserved);
    }
  }

  lemma WarmPublic(stats: map<StatsKey, StatEntry>, req: LookupRequest, now: int, ranker: RankerConfig, reserved: set<string>, r: string)
    requires req.tenant !in reserved
    ensures var stats' := PublicStats(stats, reserved);
            && (Warm(stats', req, now, ranker, r) <==> Warm(stats, req, now, ranker, r))
            && (Warm(stats, req, now, ranker, r) ==> HotScore(stats', req, now, ranker, r) == HotScore(stats, req, now, ranker, r))
  {
    hide FreshnessAt, PressureFactorAt, SloCoefficient;
  }

  /** So do the warm replicas. */
  lemma HotPublic(q: Query, stats: map<StatsKey, StatEntry>, ranker: RankerConfig, reserved: set<string>)
    requires q.req.tenant !in reserved
    ensures HotF(PublicQuery(q, reserved), PublicStats(stats, reserved), ranker) == HotF(q, stats, ranker)
  {
    hide Serving, Warm, HotScore, PublicStats, Public;
    ServingPublic(q.es, reserved, ReqScope(q.req));
    forall r
      ensures Warm(PublicStats(stats, reserved), q.req, q.now, ranker, r) <==> Warm(stats, q.req, q.now, ranker, r)
      ensures Warm(stats, q.req, q.now, ranker, r) ==>
                HotScore(PublicStats(stats, reserved), q.req, q.now, ranker, r) == HotScore(stats, q.req, q.now, ranker, r)
    {
      WarmPublic(stats, q.req, q.now, ranker, reserved, r);
    }
  }

  lemma ChainHitsPublic(q: Query, objs: map<Held, Pointer>, lfu: bool, reserved: set<string>)
    requires q.req.tenant !in reserved && |q.req.blockHashes| == |q.req.blockTokenCounts|
    ensures ChainHits(PublicQuery(q, reserved), objs, lfu) == ChainHits(q, objs, lfu)
  {
    hide Serving, RunLen, Public, RunPointers, RunningSum;
    var q' := PublicQuery(q, reserved);
    ServingPublic(q.es, reserved, ReqScope(q.req));
    forall r ensures RunLen(q', r) == RunLen(q, r) <= |q.req.blockHashes| {
      RunPublic(q, reserved, r);
      RunLenCharacterized(q, r, 0);
    }
  }

  lemma ExactHitsPublic(q: Query, objs: map<Held, Pointer>, lfu: bool, reserved: set<string>)
    requires q.req.tenant !in reserved
    ensures ExactHits(PublicQuery(q, reserved), objs, lfu) == ExactHits(q, objs, lfu)
  {
    hide Serving, FreshnessAt;
    ServingPublic(q.es, reserved, ReqScope(q.req));
  }

  /** And the entries it would credit. */
  lemma HitsPublic(q: Query, objs: map<Held, Pointer>, lfu: bool, reserved: set<string>)
    requires q.req.tenant !in reserved
    ensures HitsF(PublicQuery(q, reserved), objs, lfu) == HitsF(q, objs, lfu)
  {
    hide ChainHits, ExactHits, Public;
    if ChainBearing(q.req) && |q.req.blockHashes| == |q.req.blockTokenCounts| {
      ChainHitsPublic(q, objs, lfu, reserved);
    } else if !ChainBearing(q.req) {
      ExactHitsPublic(q, objs, lfu, reserved);
    }
  }

  // ---- Misses ----

  /** Nothing public is stored, but something is. */
  ghost predicate OnlyReserved(es: Entries, reserved: set<string>) {
    Public(es, reserved) == map[] && es != map[]
  }

  /** The diagnosis of a public miss differs from the one on public state exactly
      while all that is stored is reserved; it then reads UNKNOWN_TENANT for none. */
  lemma MissSeesProbe(es: Entries, req: LookupRequest, reserved: set<string>)
    requires req.tenant !in reserved
    ensures MissF(es, req) != MissF(Public(es, reserved), req) <==> OnlyReserved(es, reserved)
    ensures OnlyReserved(es, reserved) ==> MissF(es, req) == UnknownTenant && MissF(Public(es, reserved), req) == NoStrategy
  {
    var public := Public(es, reserved);
    assert forall h :: h in es && h.key.tenant == req.tenant <==> h in public && h.key.tenant == req.tenant;
    assert public != map[] ==> es != map[] by {
      if h :| h in public {
        assert h in es;
      }
    }
    assert HasTenant(es, req.tenant) <==> HasTenant(public, req.tenant);
    assert HasModel(es, req.tenant, req.model) <==> HasModel(public, req.tenant, req.model);
    assert HasScheme(es, req.tenant, req.model, req.hashScheme) <==> HasScheme(public, req.tenant, req.model, req.hashScheme);
  }

  // ---- One look, one delivery ----

  /** A public look is a look at public state, save a diagnosis made while all that
      is stored is reserved. */
  lemma LookPublic(phase: Phase, q: Query, stats: map<StatsKey, StatEntry>, ranker: RankerConfig, objs: map<Held, Pointer>,
                   lfu: bool, next: Phase, reserved: set<string>)
    requires q.req.tenant !in reserved && LookStep(phase, q, stats, ranker, objs, lfu, next)
    ensures LookStep(phase, PublicQuery(q, reserved), PublicStats(stats, reserved), ranker, objs, lfu, next) <==>
            !(phase.Missed? && OnlyReserved(q.es, reserved))
    ensures phase.Missed? && OnlyReserved(q.es, reserved) ==> next == Found(LookupResult([], UnknownTenant, map[]))
  {
    hide LookupF, HotF, HitsF, MissF, Lists, BestFirst, Public, PublicStats, OnlyReserved;
    LookupPublic(q, stats, ranker, reserved);
    HotPublic(q, stats, ranker, reserved);
    HitsPublic(q, objs, lfu, reserved);
    MissSeesProbe(q.es, q.req, reserved);
  }

  /** What a public request is answered, given its result, is decided by public state. */
  lemma DeliveredPublic(reply: Reply, result: LookupResult, req: RouteRequest, inp: Inputs, pol: Policies, es: Entries,
                        digest: string -> nat, reserved: set<string>)
    requires req.tenant !in reserved
    ensures Delivered(reply, result, req, inp, pol, Public(es, reserved), digest) <==> Delivered(reply, result, req, inp, pol, es, digest)
  {
    hide Serving, IsPick, Public;
    ServingPublic(es, reserved, ScopeKey(req.tenant, req.model, req.hashScheme));
  }
}
