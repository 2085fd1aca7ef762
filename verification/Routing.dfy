/** The routing entry point (internal/index/lookup.go:53-66, 382-742): prefix match
    first, then replicas warm for the tenant, then a diagnosis of the miss, and
    the affinity pick the server falls back to. Every answer is proved equal to
    what scanning all entries and all stats would give, although the code reads
    only the counts kept beside them.
 */
module Routing {
  import opened Ordering
  import opened Sorting
  import opened Tally
  import opened Domain
  import opened Policy
  import opened IndexModel
  import opened LookupModel
  import opened Ranking
  import opened Bookkeeping
  import opened Collect
  import opened CacheIndex
  import opened Lookup

  // ---- What the counts say about a scope ----

  /** Some stored prefix belongs to the tenant / model / engine domain. */
  ghost predicate HasTenant(es: Entries, tenant: string) {
    exists h :: h in es && h.key.tenant == tenant
  }

  ghost predicate HasModel(es: Entries, tenant: string, model: string) {
    exists h :: h in es && h.key.tenant == tenant && h.key.model == model
  }

  ghost predicate HasScheme(es: Entries, tenant: string, model: string, scheme: string) {
    exists h :: h in es && h.key.tenant == tenant && h.key.model == model && h.key.hashScheme == scheme
  }

  lemma CountPositive<X(!new), K(!new)>(s: set<X>, f: X -> K, k: K)
    ensures Get(Count(s, f), k) > 0 <==> exists x :: x in s && f(x) == k
  {
    CountAt(s, f, k);
    if Fiber(s, f, k) != {} {
      var x :| x in Fiber(s, f, k);
    }
    if x :| x in s && f(x) == k {
      assert x in Fiber(s, f, k);
    }
  }

  lemma ServingKeys(r: Rep, reserved: set<string>, scope: ScopeKey)
    requires Sound(r, reserved)
    ensures EntriesOf(r).Keys == r.objs.Keys
    ensures Sub(r.books.serving, scope).Keys == Serving(EntriesOf(r).Keys, scope)
    ensures |Sub(r.books.serving, scope)| == |Serving(EntriesOf(r).Keys, scope)|
    ensures forall id :: Get(Sub(r.books.serving, scope), id) == 0 <==> id !in Serving(EntriesOf(r).Keys, scope)
  {
    hide Flattens, Homed, Credited, Group, StoredIn, Fiber, PrefixKeys, ReservedHeld, Count2, Sub;
    StoredKeys(r.objs, r.home, r.arena);
    SubCount2(r.objs.Keys, ScopeOf, ReplicaOf, scope);
    var held := ScopeHeld(r.objs.Keys, scope);
    forall id ensures Get(Count(held, ReplicaOf), id) == 0 <==> id !in Image(held, ReplicaOf) {
      CountAt(held, ReplicaOf, id);
    }
  }

  lemma ServingHas(es: Entries, tenant: string, model: string, scheme: string)
    ensures Serving(es.Keys, ScopeKey(tenant, model, scheme)) != {} <==> HasScheme(es, tenant, model, scheme)
  {
    var scope := ScopeKey(tenant, model, scheme);
    if HasScheme(es, tenant, model, scheme) {
      var h :| h in es && h.key.tenant == tenant && h.key.model == model && h.key.hashScheme == scheme;
      assert h in ScopeHeld(es.Keys, scope) && ReplicaOf(h) in Serving(es.Keys, scope);
    }
  }

  lemma TenantHas(es: Entries, tenant: string, model: string)
    ensures Get(Count(PrefixKeys(es.Keys), TenantOf), tenant) > 0 <==> HasTenant(es, tenant)
    ensures Get(Count(PrefixKeys(es.Keys), ModelOf), ModelKey(tenant, model)) > 0 <==> HasModel(es, tenant, model)
  {
    hide Count;
    var ks := PrefixKeys(es.Keys);
    CountPositive(ks, TenantOf, tenant);
    CountPositive(ks, ModelOf, ModelKey(tenant, model));
    if h :| h in es && h.key.tenant == tenant {
      assert h.key in ks && TenantOf(h.key) == tenant;
    }
    if h :| h in es && h.key.tenant == tenant && h.key.model == model {
      assert h.key in ks && ModelOf(h.key) == ModelKey(tenant, model);
    }
  }

  /** `hasAnyForTenantLocked`, `hasAnyForTenantModelLocked`,
      `hasAnyForTenantModelSchemeLocked` against the scan. */
  lemma SoundHasAny(r: Rep, reserved: set<string>, tenant: string, model: string, scheme: string)
    requires Sound(r, reserved)
    ensures r.prefixes == map[] <==> EntriesOf(r) == map[]
    ensures Get(r.books.byTenant, tenant) > 0 <==> HasTenant(EntriesOf(r), tenant)
    ensures Get(r.books.byModel, ModelKey(tenant, model)) > 0 <==> HasModel(EntriesOf(r), tenant, model)
    ensures Sub(r.books.serving, ScopeKey(tenant, model, scheme)) != map[] <==> HasScheme(EntriesOf(r), tenant, model, scheme)
  {
    assert EntriesOf(r).Keys == r.objs.Keys && PrefixKeys(r.objs.Keys) == r.prefixes.Keys by {
      hide Group, Accounts, Credited;
      FlatKeys(r.prefixes, r.objs);
      StoredKeys(r.objs, r.home, r.arena);
    }
    hide Flattens, Homed, Credited, Group, StoredIn, Count, Count2, Sub, HasTenant, HasModel, HasScheme;
    assert r.prefixes == map[] <==> EntriesOf(r) == map[] by {
      if h :| h in EntriesOf(r) {
        assert h.key in PrefixKeys(r.objs.Keys);
      }
    }
    TenantHas(EntriesOf(r), tenant, model);
    ServingKeys(r, reserved, ScopeKey(tenant, model, scheme));
    ServingHas(EntriesOf(r), tenant, model, scheme);
  }

  /** The widest contract level at which nothing is stored; no diagnosis while
      nothing is stored at all. */
  ghost function MissF(es: Entries, req: LookupRequest): Strategy {
    if es == map[] then NoStrategy
    else if !HasTenant(es, req.tenant) then UnknownTenant
    else if !HasModel(es, req.tenant, req.model) then UnknownModel
    else if !HasScheme(es, req.tenant, req.model, req.hashScheme) then UnknownHashScheme
    else NoStrategy
  }

  method ClassifyMiss(ix: Index, req: LookupRequest) returns (s: Strategy)
    requires ix.Valid()
    ensures s == MissF(ix.Stored(), req)
  {
    hide Sound, EntriesOf, HasTenant, HasModel, HasScheme, Sub;
    SoundHasAny(ix.Now(), ix.cfg.reserved, req.tenant, req.model, req.hashScheme);
    var b := ix.books;
    if ix.prefixes == map[] {
      return NoStrategy;
    }
    if Get(b.byTenant, req.tenant) <= 0 {
      return UnknownTenant;
    }
    if Get(b.byModel, ModelKey(req.tenant, req.model)) <= 0 {
      return UnknownModel;
    }
    if Sub(b.serving, ReqScope(req)) == map[] {
      return UnknownHashScheme;
    }
    return NoStrategy;
  }

  // ---- Tenant-hot fallback ----

  /** A scan of all stats: the replica's values are recent and good enough. */
  predicate Warm(stats: map<StatsKey, StatEntry>, req: LookupRequest, now: int, ranker: RankerConfig, replica: string) {
    var sk := StatsKey(req.tenant, req.model, replica);
    && sk in stats
    && now - stats[sk].statsReported < ranker.tenantHotMaxAge
    && stats[sk].stats.hitRate >= ranker.tenantHotMinHitRate
  }

  function HotScore(stats: map<StatsKey, StatEntry>, req: LookupRequest, now: int, ranker: RankerConfig,
                    replica: string): ReplicaScore
    requires Warm(stats, req, now, ranker, replica)
  {
    var s := stats[StatsKey(req.tenant, req.model, replica)];
    var recency := FreshnessAt(now, s.statsReported, ranker.tenantHotMaxAge);
    ReplicaScore(replica,
                 s.stats.hitRate * recency * PressureFactorAt(s.stats.pressure, ranker.pressureWeight)
                 * (1.0 + recency * SloCoefficient(ranker, req.ttftBudgetMs)),
                 0, s.stats.hitRate, TIER_UNSPECIFIED)
  }

  /** The replicas that are warm and serve the scope; none while switched off. */
  ghost function HotF(q: Query, stats: map<StatsKey, StatEntry>, ranker: RankerConfig): Scores {
    if ranker.tenantHotMaxAge <= 0 || q.req.hashScheme == "" then map[]
    else map r | r in ServingSet(q) && Warm(stats, q.req, q.now, ranker, r) :: HotScore(stats, q.req, q.now, ranker, r)
  }

  lemma ScopedHas(r: Rep, reserved: set<string>, mk: ModelKey, replica: string)
    requires Sound(r, reserved)
    ensures replica in Members(r.byStats, mk) <==> StatsKey(mk.tenant, mk.model, replica) in r.stats
  {
    hide Flattens, Homed, Credited, Accounts;
    var sk := StatsKey(mk.tenant, mk.model, replica);
    if sk in r.stats {
      assert sk in r.stats.Keys && StatsModel(sk) == mk && sk in Fiber(r.stats.Keys, StatsModel, mk) && StatsReplica(sk) == replica;
      assert mk in Image(r.stats.Keys, StatsModel);
      assert replica in Image(Fiber(r.stats.Keys, StatsModel, mk), StatsReplica);
    }
    if replica in Members(r.byStats, mk) {
      assert mk in r.byStats && replica in Image(Fiber(r.stats.Keys, StatsModel, mk), StatsReplica);
      var s :| s in Fiber(r.stats.Keys, StatsModel, mk) && StatsReplica(s) == replica;
      assert s == sk;
    }
  }

  /** Pass 1: the warm replicas among those known for (tenant, model). */
  method WarmReplicas(scoped: set<string>, stats: map<StatsKey, StatEntry>, req: LookupRequest, now: int,
                      ranker: RankerConfig)
      returns (warm: map<string, StatEntry>)
    requires forall r :: r in scoped <==> StatsKey(req.tenant, req.model, r) in stats
    ensures forall r :: r in warm <==> Warm(stats, req, now, ranker, r)
    ensures forall r :: r in warm ==> Warm(stats, req, now, ranker, r) && warm[r] == stats[StatsKey(req.tenant, req.model, r)]
  {
    warm := map[];
    var ids := scoped;
    while ids != {}
      invariant ids <= scoped
      invariant forall r :: r in warm <==> r !in ids && Warm(stats, req, now, ranker, r)
      invariant forall r :: r in warm ==> Warm(stats, req, now, ranker, r) && warm[r] == stats[StatsKey(req.tenant, req.model, r)]
      decreases ids
    {
      var id :| id in ids;
      ids := ids - {id};
      var s := stats[StatsKey(req.tenant, req.model, id)];
      if now - s.statsReported < ranker.tenantHotMaxAge && s.stats.hitRate >= ranker.tenantHotMinHitRate {
        warm := warm[id := s];
      }
    }
  }

  /** Pass 2: keep those that serve the engine domain, and score them. */
  method ScoreWarm(warm: map<string, StatEntry>, serving: map<string, int>, stats: map<StatsKey, StatEntry>,
                   req: LookupRequest, now: int,
                   ranker: RankerConfig, ghost q: Query) returns (scores: seq<ReplicaScore>)
    requires q.req == req && q.now == now && ranker.tenantHotMaxAge > 0 && req.hashScheme != ""
    requires forall r :: r in warm <==> Warm(stats, req, now, ranker, r)
    requires forall r :: r in warm ==> Warm(stats, req, now, ranker, r) && warm[r] == stats[StatsKey(req.tenant, req.model, r)]
    requires forall r :: Get(serving, r) == 0 <==> r !in ServingSet(q)
    ensures Lists(scores, HotF(q, stats, ranker))
  {
    hide Lists, Warm, ServingSet, PressureFactorAt, SloCoefficient;
    scores := [];
    ghost var m: Scores := map[];
    assert Lists(scores, m) by { ListsNothing(); }
    var ids := warm.Keys;
    while ids != {}
      invariant ids <= warm.Keys && Lists(scores, m)
      invariant forall r :: r in m <==> r !in ids && r in ServingSet(q) && Warm(stats, req, now, ranker, r)
      invariant forall r :: r in m ==> m[r] == HotScore(stats, req, now, ranker, r)
      decreases ids
    {
      var id :| id in ids;
      ids := ids - {id};
      if Get(serving, id) != 0 {
        var w := warm[id];
        var age := now - w.statsReported;
        var recency := if age <= 0 then 1.0
                       else if age >= ranker.tenantHotMaxAge then 0.0
                       else 1.0 - Ratio(age, ranker.tenantHotMaxAge);
        var sc := ReplicaScore(id, w.stats.hitRate * recency * PressureFactorAt(w.stats.pressure, ranker.pressureWeight)
                                   * (1.0 + recency * SloCoefficient(ranker, req.ttftBudgetMs)),
                               0, w.stats.hitRate, TIER_UNSPECIFIED);
        ListsAppend(scores, m, sc);
        scores := scores + [sc];
        m := m[id := sc];
      }
    }
    assert m == HotF(q, stats, ranker);
  }

  lemma HotNeedsBoth(q: Query, stats: map<StatsKey, StatEntry>, ranker: RankerConfig)
    ensures ranker.tenantHotMaxAge <= 0 || q.req.hashScheme == "" ==> HotF(q, stats, ranker) == map[]
    ensures (forall r :: !Warm(stats, q.req, q.now, ranker, r)) ==> HotF(q, stats, ranker) == map[]
    ensures ServingSet(q) == {} ==> HotF(q, stats, ranker) == map[]
  {}

  /** The lookup a request amounts to. */
  ghost function QueryOf(ix: Index, req: LookupRequest, now: int, pol: Policies): Query
    reads ix
  {
    Query(ix.Stored(), req, now, TtlFor(ix.cfg, pol, req.tenant))
  }

  method TenantHotCandidates(ix: Index, req: LookupRequest, now: int, pol: Policies) returns (scores: seq<ReplicaScore>)
    requires ix.Valid()
    ensures Lists(scores, HotF(QueryOf(ix, req, now, pol), ix.stats, ix.cfg.ranker)) && BestFirst(scores)
  {
    hide Sound, EntriesOf, Lists, ByteBefore, HotF, Warm, Sub, TtlFor;
    var ranker, stats := ix.cfg.ranker, ix.stats;
    ghost var q := QueryOf(ix, req, now, pol);
    ListsNothing();
    HotNeedsBoth(q, stats, ranker);
    if ranker.tenantHotMaxAge <= 0 || req.hashScheme == "" {
      return [];
    }
    var mk := ModelKey(req.tenant, req.model);
    var scoped, serving := Members(ix.replicasByModel, mk), Sub(ix.books.serving, ReqScope(req));
    forall r ensures r in scoped <==> StatsKey(req.tenant, req.model, r) in stats {
      ScopedHas(ix.Now(), ix.cfg.reserved, mk, r);
    }
    ServingKeys(ix.Now(), ix.cfg.reserved, ReqScope(req));
    if scoped == {} {
      assert forall r :: !Warm(stats, req, now, ranker, r) by { ColdWithoutStats(stats, req, now, ranker, scoped); }
      return [];
    }
    var warm := WarmReplicas(scoped, stats, req, now, ranker);
    if warm == map[] {
      return [];
    }
    if serving == map[] {
      return [];
    }
    scores := ScoreWarm(warm, serving, stats, req, now, ranker, q);
    var a := new ReplicaScore[|scores|](i requires 0 <= i < |scores| => scores[i]);
    assert a[..] == scores;
    SortByScore(a, HotF(q, stats, ranker));
    scores := a[..];
  }

  lemma ColdWithoutStats(stats: map<StatsKey, StatEntry>, req: LookupRequest, now: int, ranker: RankerConfig,
                         scoped: set<string>)
    requires scoped == {} && forall r :: r in scoped <==> StatsKey(req.tenant, req.model, r) in stats
    ensures forall r :: !Warm(stats, req, now, ranker, r)
  {}

  // ---- The lookup ----

  /** `lookupWithHits`: ranked matches, and per replica the entries to credit. */
  method LookupWithHits(ix: Index, req: LookupRequest, now: int, pol: Policies) returns (scores: seq<ReplicaScore>,
                        hits: Hits)
    requires ix.Valid()
    ensures Lists(scores, LookupF(QueryOf(ix, req, now, pol), ix.stats, ix.cfg.ranker)) && BestFirst(scores)
    ensures hits == HitsF(QueryOf(ix, req, now, pol), ix.objs, pol.IsLFU(req.tenant))
  {
    hide Sound, StoredIn, Lists, ByteBefore, ChainScores, ExactScores, ChainHits, ExactHits, Sub, TtlFor, Linked;
    ListsNothing();
    if req.hashScheme == "" {
      return [], map[];
    }
    ghost var q := QueryOf(ix, req, now, pol);
    var total := |Sub(ix.books.serving, ReqScope(req))|;
    ServingKeys(ix.Now(), ix.cfg.reserved, ReqScope(req));
    SoundIsLinked(ix.Now(), ix.cfg.reserved);
    var ttl, lfu := TtlFor(ix.cfg, pol, req.tenant), pol.IsLFU(req.tenant);
    if |req.blockHashes| > 0 || |req.blockTokenCounts| > 0 {
      if |req.blockHashes| != |req.blockTokenCounts| {
        return [], map[];
      }
      scores, hits := LookupChain(ix.prefixes, ix.arena, req, now, ttl, q, lfu, ix.stats, ix.cfg.ranker, total, ix.objs, ix.home);
      return;
    }
    scores, hits := LookupExact(ix.prefixes, ix.arena, req, now, ttl, q, lfu, ix.stats, ix.cfg.ranker, total, ix.objs, ix.home);
  }

  datatype LookupResult = LookupResult(scores: seq<ReplicaScore>, strategy: Strategy, hits: Hits)

  predicate Unkeyed(req: LookupRequest) {
    req.tenant == "" || req.model == "" || req.hashScheme == ""
  }

  predicate MalformedChain(req: LookupRequest) {
    |req.blockHashes| != |req.blockTokenCounts|
  }

  /** What `LookupRoute` decides, by scanning. */
  ghost function RouteStrategy(q: Query, stats: map<StatsKey, StatEntry>, ranker: RankerConfig): Strategy {
    if Unkeyed(q.req) || MalformedChain(q.req) then NoStrategy
    else if LookupF(q, stats, ranker) != map[] then PrefixMatch
    else if !ChainBearing(q.req) && HotF(q, stats, ranker) != map[] then TenantHot
    else MissF(q.es, q.req)
  }

  ghost function RouteScores(q: Query, stats: map<StatsKey, StatEntry>, ranker: RankerConfig): Scores {
    match RouteStrategy(q, stats, ranker)
    case PrefixMatch => LookupF(q, stats, ranker)
    case TenantHot => HotF(q, stats, ranker)
    case _ => map[]
  }

  ghost function RouteHits(q: Query, stats: map<StatsKey, StatEntry>, ranker: RankerConfig, objs: map<Held, Pointer>,
                           lfu: bool): Hits {
    if RouteStrategy(q, stats, ranker).PrefixMatch? then HitsF(q, objs, lfu) else map[]
  }

  lemma ListsEmpty(q: seq<ReplicaScore>, m: Scores)
    requires Lists(q, m)
    ensures |q| > 0 <==> m != map[]
  {
    if |q| > 0 {
      assert q[0].replica in Ids(q);
    }
  }

  const NO_MATCH := LookupResult([], NoStrategy, map[])

  /** How far a lookup has got. Each further look at the index takes the lock anew,
      so the index may have changed since the last one. */
  datatype Phase = Matching | Cooling | Missed | Found(result: LookupResult)

  /** One look, decided by scanning: a match, else warm replicas unless a chain was
      asked for, else a diagnosis. */
  ghost predicate LookStep(phase: Phase, q: Query, stats: map<StatsKey, StatEntry>, ranker: RankerConfig,
                           objs: map<Held, Pointer>, lfu: bool, next: Phase) {
    match phase
    case Matching =>
      if Unkeyed(q.req) || MalformedChain(q.req) then next == Found(NO_MATCH)
      else if LookupF(q, stats, ranker) != map[] then
        && next.Found? && next.result.strategy == PrefixMatch && next.result.hits == HitsF(q, objs, lfu)
        && Lists(next.result.scores, LookupF(q, stats, ranker)) && BestFirst(next.result.scores)
      else next == if ChainBearing(q.req) then Missed else Cooling
    case Cooling =>
      if HotF(q, stats, ranker) != map[] then
        && next.Found? && next.result.strategy == TenantHot && next.result.hits == map[]
        && Lists(next.result.scores, HotF(q, stats, ranker)) && BestFirst(next.result.scores)
      else next == Missed
    case Missed => next == Found(LookupResult([], MissF(q.es, q.req), map[]))
    case Found(_) => next == phase
  }

  method Look(ix: Index, req: LookupRequest, phase: Phase, now: int, pol: Policies) returns (next: Phase)
    requires ix.Valid()
    ensures LookStep(phase, QueryOf(ix, req, now, pol), ix.stats, ix.cfg.ranker, ix.objs, pol.IsLFU(req.tenant), next)
  {
    hide Sound, StoredIn, Lists, ByteBefore, LookupF, HotF, HitsF, MissF, TtlFor;
    ghost var q := QueryOf(ix, req, now, pol);
    var chainBearing := |req.blockHashes| > 0 || |req.blockTokenCounts| > 0;
    match phase
    case Matching =>
      if req.tenant == "" || req.model == "" || req.hashScheme == "" {
        return Found(NO_MATCH);
      }
      if chainBearing && |req.blockHashes| != |req.blockTokenCounts| {
        return Found(NO_MATCH);
      }
      var scores, hits := LookupWithHits(ix, req, now, pol);
      ListsEmpty(scores, LookupF(q, ix.stats, ix.cfg.ranker));
      if |scores| > 0 {
        return Found(LookupResult(scores, PrefixMatch, hits));
      }
      return if chainBearing then Missed else Cooling;
    case Cooling =>
      var hot := TenantHotCandidates(ix, req, now, pol);
      ListsEmpty(hot, HotF(q, ix.stats, ix.cfg.ranker));
      if |hot| > 0 {
        return Found(LookupResult(hot, TenantHot, map[]));
      }
      return Missed;
    case Missed =>
      var miss := ClassifyMiss(ix, req);
      return Found(LookupResult([], miss, map[]));
    case Found(_) =>
      return phase;
  }

  /** `LookupRoute` when nothing intervenes between its looks. */
  method LookupRoute(ix: Index, req: LookupRequest, now: int, pol: Policies) returns (res: LookupResult)
    requires ix.Valid()
    ensures res.strategy == RouteStrategy(QueryOf(ix, req, now, pol), ix.stats, ix.cfg.ranker)
    ensures Lists(res.scores, RouteScores(QueryOf(ix, req, now, pol), ix.stats, ix.cfg.ranker)) && BestFirst(res.scores)
    ensures res.hits == RouteHits(QueryOf(ix, req, now, pol), ix.stats, ix.cfg.ranker, ix.objs, pol.IsLFU(req.tenant))
  {
    hide Sound, StoredIn, Lists, ByteBefore, LookupF, HotF, HitsF, MissF, TtlFor;
    ghost var q := QueryOf(ix, req, now, pol);
    ListsNothing();
    MissIsNoMatch(q.es, req);
    var phase := Look(ix, req, Matching, now, pol);
    if phase.Cooling? {
      phase := Look(ix, req, phase, now, pol);
    }
    if phase.Missed? {
      phase := Look(ix, req, phase, now, pol);
    }
    res := phase.result;
  }

  lemma MissIsNoMatch(es: Entries, req: LookupRequest)
    ensures !MissF(es, req).PrefixMatch? && !MissF(es, req).TenantHot?
  {}

  /** The answer does not depend on the order maps were walked in: equal stored
      state gives the same list. */
  lemma RankedListUnique(q: seq<ReplicaScore>, q': seq<ReplicaScore>, m: Scores)
    requires Lists(q, m) && Lists(q', m) && BestFirst(q) && BestFirst(q')
    ensures q == q'
  {
    hide RanksBefore, BestFirst;
    BestFirstIsRanked(q);
    BestFirstIsRanked(q');
    OrdersAreStrict(q, m);
    OrdersAreStrict(q', m);
    assert Elems(q) == Elems(q') by {
      SameElems(q, q', m);
      SameElems(q', q, m);
    }
    ListingUnique(RanksBefore, q, q', Elems(q));
  }

  lemma SameElems(q: seq<ReplicaScore>, q': seq<ReplicaScore>, m: Scores)
    requires Lists(q, m) && Lists(q', m)
    ensures Elems(q) <= Elems(q')
  {
    forall x | x in Elems(q) ensures x in Elems(q') {
      assert x.replica in Ids(q');
      var j :| 0 <= j < |q'| && q'[j].replica == x.replica;
    }
  }

  // ---- Affinity ----

  /** `replicasForRouting`: the serving set, in id order. */
  method ReplicasForRouting(ix: Index, tenant: string, model: string, hashScheme: string) returns (out: seq<string>)
    requires ix.Valid()
    ensures Ascending(Less, out)
    ensures Elems(out) == if hashScheme == "" then {} else Serving(ix.Stored().Keys, ScopeKey(tenant, model, hashScheme))
  {
    hide Sound, EntriesOf, Serving, Less;
    out := [];
    if hashScheme == "" {
      return;
    }
    var scope := ScopeKey(tenant, model, hashScheme);
    ServingKeys(ix.Now(), ix.cfg.reserved, scope);
    ghost var serving := Serving(ix.Stored().Keys, scope);
    var ids := Sub(ix.books.serving, scope).Keys;
    while ids != {}
      invariant ids <= serving && Distinct(out)
      invariant forall x :: x in out <==> x in serving && x !in ids
      decreases ids
    {
      var id :| id in ids;
      out, ids := out + [id], ids - {id};
    }
    assert Elems(out) == serving;
    LessStrict(serving);
    SortAscending(Less, out, serving);
    out := Sort(Less, out);
  }

  lemma LessStrict(s: set<string>)
    ensures StrictOn(Less, s)
  {
    hide Less;
    forall x, y, z | x in s && y in s && z in s
      ensures !Less(x, x)
      ensures x != y ==> Less(x, y) || Less(y, x)
      ensures Less(x, y) && Less(y, z) ==> Less(x, z)
    {
      LessIrreflexive(x);
      LessTotal(x, y);
      if Less(x, y) && Less(y, z) {
        LessTransitive(x, y, z);
      }
    }
  }

  /** The serving replica whose rank in id order is the number modulo the size of
      the serving set. */
  ghost predicate IsPick(serving: set<string>, n: nat, replica: string) {
    replica in serving && |serving| > 0 && |Below(Less, serving, replica)| == n % |serving|
  }

  /** `AffinityHint`, with `digest` for the first eight bytes of SHA-256 read as a
      number. The pick depends on the serving set and the seed only. */
  method AffinityHint(ix: Index, tenant: string, model: string, hashScheme: string, seed: string, digest: string -> nat)
      returns (replica: string, ok: bool)
    requires ix.Valid()
    ensures var serving := Serving(ix.Stored().Keys, ScopeKey(tenant, model, hashScheme));
            && (ok <==> seed != "" && hashScheme != "" && serving != {})
            && (ok ==> IsPick(serving, digest(seed), replica))
  {
    hide Sound, EntriesOf, Serving, Less, Below;
    if |seed| == 0 {
      return "", false;
    }
    var replicas := ReplicasForRouting(ix, tenant, model, hashScheme);
    ghost var serving := Serving(ix.Stored().Keys, ScopeKey(tenant, model, hashScheme));
    if |replicas| == 0 {
      assert hashScheme != "" ==> serving == {} by {
        assert replicas == [] && Elems(replicas) == {};
      }
      return "", false;
    }
    assert replicas[0] in Elems(replicas);
    LessStrict(serving);
    ListingLength(Less, replicas, serving);
    var idx := digest(seed) % |replicas|;
    BelowInListing(Less, replicas, serving, idx);
    assert replicas[idx] in Elems(replicas);
    return replicas[idx], true;
  }

  /** At most one replica fits, so ingest order and restarts cannot move the pick. */
  lemma AffinityUnique(serving: set<string>, n: nat, r: string, s: string)
    requires IsPick(serving, n, r) && IsPick(serving, n, s)
    ensures r == s
  {
    hide Less;
    LessStrict(serving);
    if r != s {
      var x, y := if Less(r, s) then r else s, if Less(r, s) then s else r;
      var below := Below(Less, serving, x);
      assert x !in below && |below + {x}| == |below| + 1;
      assert below + {x} <= Below(Less, serving, y);
      SubsetCard(below + {x}, Below(Less, serving, y));
    }
  }
}
