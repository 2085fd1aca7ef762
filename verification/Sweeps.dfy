/** The periodic sweep (internal/index/eviction.go:57-114) only tidies up: a lookup
    filters stale entries itself (internal/index/lookup.go:154-157, 262, 275), so
    whether the sweep ran can not be told from what its matches claim, whatever was
    reported, removed, swept or credited since, as long as no bound forced an eviction.
 */
module Sweeps {
  import opened Ordering
  import opened Domain
  import opened Policy
  import opened IndexModel
  import opened Eviction
  import opened LookupModel
  import opened Runs

  /** What a hint claims about cache content. */
  datatype Evidence = Evidence(matched: int32, hitProb: real, tier: int)

  ghost function EvidenceOf(m: Scores): map<string, Evidence> {
    map r | r in m :: Evidence(m[r].matched, m[r].hitProb, m[r].tier)
  }

  // ---- Entries that differ in what has expired ----

  /** `kept` has the reports of `full`, but for some that had expired at `now`. */
  ghost predicate Behind(full: Entries, kept: Entries, now: int, pol: Policies, cfg: Config) {
    && (forall h :: h in kept ==> h in full && ReportOf(kept[h]) == ReportOf(full[h]))
    && (forall h :: h in full && h !in kept ==> Expired(full[h].lastSeen, now, TtlFor(cfg, pol, h.key.tenant)))
  }

  lemma SweptIsBehind(st: State, now: int, pol: Policies, cfg: Config)
    ensures Behind(st.entries, SweepF(st, now, pol, cfg).entries, now, pol, cfg)
  {}

  /** The report fits under the tenant's budget and the cap. */
  ghost predicate HasRoom(st: State, op: Op, cfg: Config) {
    op.Ingest? ==>
      var held := PutAll(st.entries, Writes(op.u), op.u.replica, TimeOf(op.u.timestamp, op.now)).Keys;
      && (op.u.tenant == PROBE_TENANT || op.u.tenant !in op.pol.tenants || op.pol.tenants[op.u.tenant].maxIndexEntries < 0
          || |TenantKeys(held, op.u.tenant)| <= op.pol.tenants[op.u.tenant].maxIndexEntries)
      && (cfg.maxEntries <= 0 || |Unreserved(held, cfg.reserved)| <= cfg.maxEntries)
  }

  lemma RoomToWrite(st: State, op: Op, cfg: Config)
    requires op.Ingest? && HasRoom(st, op, cfg)
    ensures Step(st, op, cfg).entries == PutAll(st.entries, Writes(op.u), op.u.replica, TimeOf(op.u.timestamp, op.now))
  {
    hide PutAll, Writes, QuotaF, CapF, TenantKeys, Unreserved;
    var written := PutAll(st.entries, Writes(op.u), op.u.replica, TimeOf(op.u.timestamp, op.now));
    var quota := op.pol.TenantQuota(op.u.tenant);
    if quota.Some? {
      QuotaIdle(written, op.u.tenant, quota.value);
    }
    CapIdle(written, op.pol, cfg);
  }

  lemma FewerKeys(held: set<Held>, fewer: set<Held>, tenant: string, reserved: set<string>)
    requires fewer <= held
    ensures |TenantKeys(fewer, tenant)| <= |TenantKeys(held, tenant)|
    ensures |Unreserved(fewer, reserved)| <= |Unreserved(held, reserved)|
  {
    SubsetCard(TenantKeys(fewer, tenant), TenantKeys(held, tenant));
    SubsetCard(Unreserved(fewer, reserved), Unreserved(held, reserved));
  }

  lemma WritesKeepBehind(full: Entries, kept: Entries, ws: seq<Write>, replica: string, ts: int, now: int, pol: Policies, cfg: Config)
    requires Behind(full, kept, now, pol, cfg)
    ensures Behind(PutAll(full, ws, replica, ts), PutAll(kept, ws, replica, ts), now, pol, cfg)
  {
    hide TtlFor, LastWrite, PutAll, Expired;
    forall h
      ensures h in PutAll(kept, ws, replica, ts) ==>
                h in PutAll(full, ws, replica, ts) && ReportOf(PutAll(kept, ws, replica, ts)[h]) == ReportOf(PutAll(full, ws, replica, ts)[h])
      ensures h in PutAll(full, ws, replica, ts) && h !in PutAll(kept, ws, replica, ts) ==>
                Expired(PutAll(full, ws, replica, ts)[h].lastSeen, now, TtlFor(cfg, pol, h.key.tenant))
    {
      PutAllAt(full, ws, replica, ts, h);
      PutAllAt(kept, ws, replica, ts, h);
    }
  }

  /** An operation keeps two such states apart by expired entries only. */
  lemma StepKeepsBehind(st: State, kept: State, op: Op, now: int, pol: Policies, cfg: Config)
    requires Behind(st.entries, kept.entries, now, pol, cfg) && HasRoom(st, op, cfg)
    ensures HasRoom(kept, op, cfg)
    ensures Behind(Step(st, op, cfg).entries, Step(kept, op, cfg).entries, now, pol, cfg)
  {
    hide TtlFor, Erases, PutAll, Writes, IngestF, TenantKeys, Unreserved;
    if op.Ingest? {
      var ws, ts := Writes(op.u), TimeOf(op.u.timestamp, op.now);
      WritesKeepBehind(st.entries, kept.entries, ws, op.u.replica, ts, now, pol, cfg);
      FewerKeys(PutAll(st.entries, ws, op.u.replica, ts).Keys, PutAll(kept.entries, ws, op.u.replica, ts).Keys, op.u.tenant, cfg.reserved);
      RoomToWrite(st, op, cfg);
      RoomToWrite(kept, op, cfg);
    }
  }

  // ---- A lookup does not see what has expired ----

  lemma BehindHolds(q: Query, q': Query, now: int, pol: Policies, cfg: Config, replica: string, i: nat)
    requires Behind(q.es, q'.es, now, pol, cfg) && q' == q.(es := q'.es)
    requires now <= q.now && q.ttl == TtlFor(cfg, pol, q.req.tenant)
    ensures Holds(q, replica, i) <==> Holds(q', replica, i)
    ensures ExactMatches(q, replica) <==> ExactMatches(q', replica)
  {}

  ghost predicate SubQuery(q: Query, q': Query) {
    q' == q.(es := q'.es) && forall h :: h in q'.es ==> h in q.es && ReportOf(q'.es[h]) == ReportOf(q.es[h])
  }

  lemma {:induction false} SameRunSameWorth(q: Query, q': Query, replica: string, n: nat)
    requires SubQuery(q, q') && 0 < n && HoldsAll(q, replica, n) && HoldsAll(q', replica, n)
    ensures Oldest(q, replica, n) == Oldest(q', replica, n) && RunTier(q, replica, n) == RunTier(q', replica, n)
  {
    assert Holds(q, replica, n - 1) && Holds(q', replica, n - 1);
    if n > 1 {
      SameRunSameWorth(q, q', replica, n - 1);
    }
  }

  lemma DiscountKeepsEvidence(m: Scores, total: int)
    ensures EvidenceOf(Discounted(m, total)) == EvidenceOf(m)
  {}

  lemma UniformKeepsEvidence(m: Scores, factor: real)
    ensures EvidenceOf(map r | r in m :: Scale(m[r], factor)) == EvidenceOf(m)
  {}

  lemma SilentHolder(q: Query, stats: map<StatsKey, StatEntry>, q': Query, stats': map<StatsKey, StatEntry>,
                     ranker: RankerConfig, r: string)
    requires SubQuery(q, q') && (ExactMatches(q, r) <==> ExactMatches(q', r))
    ensures r in ExactBase(q, stats, ranker) <==> r in ExactBase(q', stats', ranker)
    ensures r in ExactBase(q, stats, ranker) ==>
              EvidenceOf(ExactBase(q, stats, ranker))[r] == EvidenceOf(ExactBase(q', stats', ranker))[r]
  {
    hide ServingSet, BaseScore, PressureOf;
    MatchesAreServing(q, r);
    MatchesAreServing(q', r);
  }

  lemma SilentExact(q: Query, stats: map<StatsKey, StatEntry>, q': Query, stats': map<StatsKey, StatEntry>,
                    ranker: RankerConfig)
    requires SubQuery(q, q') && forall r :: ExactMatches(q, r) <==> ExactMatches(q', r)
    ensures EvidenceOf(ExactScores(q', stats', ranker)) == EvidenceOf(ExactScores(q, stats, ranker))
  {
    hide ExactBase, ServingSet, ExactMatches, DistinguishingPower;
    var m, m' := ExactBase(q, stats, ranker), ExactBase(q', stats', ranker);
    assert EvidenceOf(m) == EvidenceOf(m') by {
      forall r
        ensures r in m <==> r in m'
        ensures r in m ==> EvidenceOf(m)[r] == EvidenceOf(m')[r]
      {
        SilentHolder(q, stats, q', stats', ranker, r);
      }
    }
    UniformKeepsEvidence(m, DistinguishingPower(|m|, |ServingSet(q)|));
    UniformKeepsEvidence(m', DistinguishingPower(|m'|, |ServingSet(q')|));
  }

  lemma SilentReplica(q: Query, stats: map<StatsKey, StatEntry>, q': Query, stats': map<StatsKey, StatEntry>,
                      ranker: RankerConfig, r: string)
    requires SubQuery(q, q') && |q.req.blockHashes| == |q.req.blockTokenCounts|
    requires forall i: nat :: Holds(q, r, i) <==> Holds(q', r, i)
    ensures r in ChainBase(q, stats, ranker) <==> r in ChainBase(q', stats', ranker)
    ensures r in ChainBase(q, stats, ranker) ==>
              EvidenceOf(ChainBase(q, stats, ranker))[r] == EvidenceOf(ChainBase(q', stats', ranker))[r]
  {
    var n := RunLen(q, r);
    RunLenCharacterized(q, r, n);
    RunLenCharacterized(q', r, n);
    if n > 0 {
      assert Holds(q, r, 0);
      MatchesAreServing(q, r);
      MatchesAreServing(q', r);
      SameRunSameWorth(q, q', r, n);
    }
  }

  lemma SilentChain(q: Query, stats: map<StatsKey, StatEntry>, q': Query, stats': map<StatsKey, StatEntry>,
                    ranker: RankerConfig)
    requires SubQuery(q, q') && |q.req.blockHashes| == |q.req.blockTokenCounts|
    requires forall r: string, i: nat :: Holds(q, r, i) <==> Holds(q', r, i)
    ensures EvidenceOf(ChainScores(q', stats', ranker)) == EvidenceOf(ChainScores(q, stats, ranker))
  {
    hide ChainBase, ServingSet, Discounted;
    var m, m' := ChainBase(q, stats, ranker), ChainBase(q', stats', ranker);
    assert EvidenceOf(m) == EvidenceOf(m') by {
      forall r
        ensures r in m <==> r in m'
        ensures r in m ==> EvidenceOf(m)[r] == EvidenceOf(m')[r]
      {
        SilentReplica(q, stats, q', stats', ranker, r);
      }
    }
    DiscountKeepsEvidence(m, |ServingSet(q)|);
    DiscountKeepsEvidence(m', |ServingSet(q')|);
  }

  lemma BehindSameEvidence(st: State, kept: State, now: int, pol: Policies, cfg: Config, req: LookupRequest, later: int)
    requires Behind(st.entries, kept.entries, now, pol, cfg) && now <= later
    ensures var ttl := TtlFor(cfg, pol, req.tenant);
            EvidenceOf(LookupF(Query(kept.entries, req, later, ttl), kept.stats, cfg.ranker)) ==
            EvidenceOf(LookupF(Query(st.entries, req, later, ttl), st.stats, cfg.ranker))
  {
    hide TtlFor, Holds, ExactMatches, ChainScores, ExactScores;
    var ttl := TtlFor(cfg, pol, req.tenant);
    var q, q' := Query(st.entries, req, later, ttl), Query(kept.entries, req, later, ttl);
    forall r: string, i: nat ensures Holds(q, r, i) <==> Holds(q', r, i) {
      BehindHolds(q, q', now, pol, cfg, r, i);
    }
    forall r ensures ExactMatches(q, r) <==> ExactMatches(q', r) {
      BehindHolds(q, q', now, pol, cfg, r, 0);
    }
    if req.hashScheme != "" {
      if !ChainBearing(req) {
        SilentExact(q, st.stats, q', kept.stats, cfg.ranker);
      } else if |req.blockHashes| == |req.blockTokenCounts| {
        SilentChain(q, st.stats, q', kept.stats, cfg.ranker);
      }
    }
  }

  // ---- Whole runs ----

  /** No report meets a full budget or cap. */
  ghost predicate Unpressed(st: State, ops: seq<Op>, cfg: Config) {
    ops == [] || (Unpressed(st, ops[..|ops| - 1], cfg) && HasRoom(Continue(st, ops[..|ops| - 1], cfg), ops[|ops| - 1], cfg))
  }

  lemma {:induction false} AfterKeepsBehind(st: State, kept: State, ops: seq<Op>, now: int, pol: Policies, cfg: Config)
    requires Behind(st.entries, kept.entries, now, pol, cfg) && Unpressed(st, ops, cfg)
    ensures Behind(Continue(st, ops, cfg).entries, Continue(kept, ops, cfg).entries, now, pol, cfg)
  {
    hide Behind, HasRoom, Step;
    if ops != [] {
      var before, op := ops[..|ops| - 1], ops[|ops| - 1];
      AfterKeepsBehind(st, kept, before, now, pol, cfg);
      StepKeepsBehind(Continue(st, before, cfg), Continue(kept, before, cfg), op, now, pol, cfg);
    }
  }

  /** With the tenant's TTL unchanged, any lookup at the moment of a sweep or later
      returns the same replicas with the same matched tokens, hit probability and
      tier as if the sweep had not run, whatever came between. */
  lemma SweepIsSilent(st: State, now: int, pol: Policies, cfg: Config, ops: seq<Op>, req: LookupRequest, later: int)
    requires now <= later && Unpressed(st, ops, cfg)
    ensures var ttl := TtlFor(cfg, pol, req.tenant);
            var plain, swept := Continue(st, ops, cfg), Continue(SweepF(st, now, pol, cfg), ops, cfg);
            EvidenceOf(LookupF(Query(swept.entries, req, later, ttl), swept.stats, cfg.ranker)) ==
            EvidenceOf(LookupF(Query(plain.entries, req, later, ttl), plain.stats, cfg.ranker))
  {
    hide Behind, Continue, Unpressed, LookupF, EvidenceOf, TtlFor;
    SweptIsBehind(st, now, pol, cfg);
    AfterKeepsBehind(st, SweepF(st, now, pol, cfg), ops, now, pol, cfg);
    BehindSameEvidence(Continue(st, ops, cfg), Continue(SweepF(st, now, pol, cfg), ops, cfg), now, pol, cfg, req, later);
  }
}
