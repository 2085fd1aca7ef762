/** The functional self-test (internal/server/probe.go:230-457). A probe writes one
    synthetic entry under the reserved tenant, looks it up twice, and erases it.
    It leaves the index as it found it, and nothing that may happen meanwhile
    makes it fail as long as the clock moves by less than the time to live.

    SHA-256 is a parameter; the tier-2 stage has no implementation and reports
    "skipped".
 */
module Probe {
  import opened Tally
  import opened Domain
  import opened Policy
  import opened IndexModel
  import opened LookupModel
  import opened Ranking
  import opened Eviction
  import opened Runs
  import opened Isolation
  import opened Bookkeeping
  import opened CacheIndex
  import opened Lookup
  import opened Routing
  import opened Encoding

  const PROBE_PREFIX := "__probe-"
  const PROBE_TOKENS: int32 := 16

  datatype ProbeRequest = ProbeRequest(backend: string, model: string, hashScheme: string)
  datatype Stage = Ok | Failed | Skipped
  datatype ProbeResult = ProbeResult(ingest: Stage, routing: Stage, t2: Stage)

  /** `ProbeReplicaID` */
  function ReplicaId(backend: string): string {
    PROBE_PREFIX + backend
  }

  lemma ReplicaIdInjective(a: string, b: string)
    requires ReplicaId(a) == ReplicaId(b)
    ensures a == b
  {
    assert ReplicaId(a)[|PROBE_PREFIX|..] == a && ReplicaId(b)[|PROBE_PREFIX|..] == b;
  }

  function Hash(req: ProbeRequest, sha: string -> string): string {
    sha(ProbeInput(req.backend, req.model, req.hashScheme))
  }

  function ProbeUpdate(req: ProbeRequest, sha: string -> string, clock: int): Update {
    Update(ReplicaId(req.backend), req.model, PROBE_TENANT, req.hashScheme, "", clock,
           [PrefixRef("", 0, [Hash(req, sha)], [PROBE_TOKENS], TIER_UNSPECIFIED, "")],
           Some(ReplicaStats(ReplicaId(req.backend), 0, 1.0, 0.0, 0, 0)))
  }

  function ProbeLookup(req: ProbeRequest, sha: string -> string): LookupRequest {
    LookupRequest(req.model, PROBE_TENANT, req.hashScheme, "", "", [Hash(req, sha)], [PROBE_TOKENS], 0)
  }

  function CleanupEvent(req: ProbeRequest, clock: int): Event {
    Event(AllCleared, ReplicaId(req.backend), req.model, PROBE_TENANT, "", "", clock)
  }

  function ProbeKey(req: ProbeRequest, sha: string -> string): PrefixKey {
    PrefixKey(PROBE_TENANT, req.model, req.hashScheme, "", Hash(req, sha))
  }

  function ProbeHold(req: ProbeRequest, sha: string -> string): Held {
    Held(ProbeKey(req, sha), ReplicaId(req.backend))
  }

  // ---- Writing and erasing ----

  /** The hold is the probe's: its replica, under the reserved tenant and its model. */
  predicate OfProbe(req: ProbeRequest, h: Held) {
    h.key.tenant == PROBE_TENANT && h.key.model == req.model && h.replica == "__probe-" + req.backend
  }

  /** Cleaning up erases exactly the probe's holds. */
  lemma CleanupErases(req: ProbeRequest, clock: int, h: Held)
    ensures Erases(CleanupEvent(req, clock), h) <==> OfProbe(req, h)
  {}

  /** Nothing is stored or reported for the probe's replica under its model. */
  ghost predicate NoResidue(st: State, req: ProbeRequest) {
    && (forall h :: h in st.entries ==> !OfProbe(req, h))
    && StatsKey(PROBE_TENANT, req.model, ReplicaId(req.backend)) !in st.stats
  }

  ghost predicate WithinCap(es: Entries, cfg: Config) {
    cfg.maxEntries <= 0 || |Unreserved(es.Keys, cfg.reserved)| <= cfg.maxEntries
  }

  lemma ProbeWrites(req: ProbeRequest, sha: string -> string, clock: int)
    ensures Writes(ProbeUpdate(req, sha, clock)) ==
            if req.hashScheme == "" then [] else [Write(ProbeKey(req, sha), PROBE_TOKENS, TIER_T1)]
  {
    var u := ProbeUpdate(req, sha, clock);
    var p := u.prefixes[0];
    assert RunningSum(p.blockTokenCounts, 1) == Int32(RunningSum(p.blockTokenCounts, 0) + PROBE_TOKENS) == PROBE_TOKENS;
    assert ChainWrites(u, p, 1) == ChainWrites(u, p, 0) + [Write(ProbeKey(req, sha), PROBE_TOKENS, TIER_T1)];
    assert FirstWrites(u, 1) == FirstWrites(u, 0) + RefWrites(u, p);
  }

  /** From any state the ingest stores the probe entry, cap and quota or not. */
  lemma ProbeStored(st: State, req: ProbeRequest, sha: string -> string, clock: int, now: int, pol: Policies, cfg: Config)
    requires PROBE_TENANT in cfg.reserved && req.hashScheme != ""
    ensures var after, h := IngestF(st, ProbeUpdate(req, sha, clock), now, pol, cfg).entries, ProbeHold(req, sha);
            h in after && ReportOf(after[h]) == Report(PROBE_TOKENS, TIER_T1, TimeOf(clock, now))
  {
    hide CapF, CapVictims, Unreserved;
    var u := ProbeUpdate(req, sha, clock);
    ProbeWrites(req, sha, clock);
    var w := Write(ProbeKey(req, sha), PROBE_TOKENS, TIER_T1);
    PutNone(st.entries, u.replica, TimeOf(clock, now));
    PutOne(st.entries, [], w, u.replica, TimeOf(clock, now));
    assert [] + [w] == [w];
    var written := PutAll(st.entries, Writes(u), u.replica, TimeOf(clock, now));
    CapExact(written, pol, cfg);
    CapEffect(written, pol, cfg);
  }

  /** Write, then erase: the state is what it was, even exactly at the cap. */
  lemma ProbeIsIdentity(st: State, req: ProbeRequest, sha: string -> string, clock: int, now: int, pol: Policies,
                        cfg: Config,
                        clock': int, now': int)
    requires cfg.reserved == {PROBE_TENANT} && WithinCap(st.entries, cfg) && NoResidue(st, req)
    ensures EventF(IngestF(st, ProbeUpdate(req, sha, clock), now, pol, cfg), CleanupEvent(req, clock'), now') == st
  {
    hide IngestF, EventStats, IngestStats, Erases, PutAll, Writes, Unreserved;
    var u, ev := ProbeUpdate(req, sha, clock), CleanupEvent(req, clock');
    var ts := TimeOf(clock, now);
    var mid := IngestF(st, u, now, pol, cfg);
    IngestReserved(st, u, now, pol, cfg);
    IngestStatsOnly(st, u, now, pol, cfg);
    ProbeStatsErased(st.stats, req, sha, clock, ts, clock', now');
    ProbeEntriesErased(st.entries, req, sha, clock, ts, clock');
  }

  lemma ProbeEntriesErased(es: Entries, req: ProbeRequest, sha: string -> string, clock: int, ts: int, clock': int)
    requires forall h :: h in es ==> !OfProbe(req, h)
    ensures var written := PutAll(es, Writes(ProbeUpdate(req, sha, clock)), ReplicaId(req.backend), ts);
            (map h | h in written && !Erases(CleanupEvent(req, clock'), h) :: written[h]) == es
  {
    var ev, r := CleanupEvent(req, clock'), ReplicaId(req.backend);
    ProbeWrites(req, sha, clock);
    PutNone(es, r, ts);
    forall h ensures Erases(ev, h) <==> OfProbe(req, h) {
      CleanupErases(req, clock', h);
    }
    if req.hashScheme != "" {
      var w := Write(ProbeKey(req, sha), PROBE_TOKENS, TIER_T1);
      PutOne(es, [], w, r, ts);
      assert [] + [w] == [w];
      assert Erases(ev, Held(w.key, r));
    }
  }

  lemma IngestStatsOnly(st: State, u: Update, now: int, pol: Policies, cfg: Config)
    ensures IngestF(st, u, now, pol, cfg).stats == IngestStats(st.stats, u, TimeOf(u.timestamp, now))
  {}

  lemma ProbeStatsErased(ss: map<StatsKey, StatEntry>, req: ProbeRequest, sha: string -> string, clock: int, ts: int,
                         clock': int, now': int)
    requires StatsKey(PROBE_TENANT, req.model, ReplicaId(req.backend)) !in ss
    ensures EventStats(IngestStats(ss, ProbeUpdate(req, sha, clock), ts), CleanupEvent(req, clock'), now') == ss
  {}

  /** Cleanup leaves nothing behind, whatever happened before it. */
  lemma CleanupLeavesNothing(st: State, req: ProbeRequest, clock: int, now: int)
    ensures NoResidue(EventF(st, CleanupEvent(req, clock), now), req)
  {}

  // ---- Finding ----

  /** A lookup for the probe finds its replica iff the entry is there and fresh. */
  lemma ProbeFound(q: Query, req: ProbeRequest, sha: string -> string, stats: map<StatsKey, StatEntry>,
                   ranker: RankerConfig)
    requires q.req == ProbeLookup(req, sha)
    ensures ReplicaId(req.backend) in LookupF(q, stats, ranker) <==>
            && req.hashScheme != "" && ProbeHold(req, sha) in q.es && IsFresh(q, q.es[ProbeHold(req, sha)])
  {
    hide FreshnessAt, ChainScoreOf, ServingSet, AtLeastAsDeep, DistinguishingPower;
    var r := ReplicaId(req.backend);
    assert Block(q.req, 0, r) == ProbeHold(req, sha);
    RunLenCharacterized(q, r, 0);
    RunLenCharacterized(q, r, 1);
    MatchesAreServing(q, r);
    assert RunningSum(q.req.blockTokenCounts, 1) == Int32(RunningSum(q.req.blockTokenCounts, 0) + PROBE_TOKENS) == PROBE_TOKENS;
    assert HoldsAll(q, r, 1) <==> Holds(q, r, 0);
  }

  /** Stage A and stage B on one state. */
  ghost predicate StageA(st: State, req: ProbeRequest, sha: string -> string, now: int, pol: Policies, cfg: Config) {
    var q := Query(st.entries, ProbeLookup(req, sha), now, TtlFor(cfg, pol, PROBE_TENANT));
    ReplicaId(req.backend) in LookupF(q, st.stats, cfg.ranker)
  }

  ghost predicate StageB(st: State, req: ProbeRequest, sha: string -> string, now: int, pol: Policies, cfg: Config) {
    var q := Query(st.entries, ProbeLookup(req, sha), now, TtlFor(cfg, pol, PROBE_TENANT));
    RouteStrategy(q, st.stats, cfg.ranker).PrefixMatch? && ReplicaId(req.backend) in RouteScores(q, st.stats, cfg.ranker)
  }

  /** The clock has moved by less than the time to live since `ts`. */
  predicate Young(now: int, ts: int, pol: Policies, cfg: Config) {
    TtlFor(cfg, pol, PROBE_TENANT) > 0 && now - ts < TtlFor(cfg, pol, PROBE_TENANT)
  }

  lemma StagesExact(st: State, req: ProbeRequest, sha: string -> string, now: int, pol: Policies, cfg: Config)
    ensures StageA(st, req, sha, now, pol, cfg) <==>
            && req.hashScheme != "" && ProbeHold(req, sha) in st.entries
            && Young(now, st.entries[ProbeHold(req, sha)].lastSeen, pol, cfg)
    ensures StageB(st, req, sha, now, pol, cfg) <==> req.model != "" && StageA(st, req, sha, now, pol, cfg)
  {
    hide LookupF, HotF, TtlFor;
    var q := Query(st.entries, ProbeLookup(req, sha), now, TtlFor(cfg, pol, PROBE_TENANT));
    ProbeFound(q, req, sha, st.stats, cfg.ranker);
    MissIsNoMatch(q.es, q.req);
    if ReplicaId(req.backend) in LookupF(q, st.stats, cfg.ranker) {
      assert LookupF(q, st.stats, cfg.ranker) != map[];
    }
  }

  // ---- Non-interference ----

  /** What may happen while a run for `req` is under way. The public handlers drop
      the reserved tenant, and runs for the same backend and model wait. */
  ghost predicate Meanwhile(op: Op, req: ProbeRequest, sha: string -> string, ts: int, cfg: Config) {
    match op
    case Ingest(u, now, pol) =>
      u.tenant != PROBE_TENANT || exists other, clock :: OtherRun(other, req) && u == ProbeUpdate(other, sha, clock)
    case Publish(ev, now) =>
      ev.tenant != PROBE_TENANT || exists other, clock :: OtherRun(other, req) && ev == CleanupEvent(other, clock)
    case Sweep(now, pol) => Young(now, ts, pol, cfg)
    case Credit(extra) => true
  }

  predicate OtherRun(other: ProbeRequest, req: ProbeRequest) {
    other.backend != req.backend || other.model != req.model
  }

  ghost predicate Intact(st: State, h: Held, ts: int) {
    h in st.entries && ReportOf(st.entries[h]) == Report(PROBE_TOKENS, TIER_T1, ts)
  }

  /** Reserved entries are never evicted for room. */
  lemma IngestKeepsReserved(st: State, u: Update, now: int, pol: Policies, cfg: Config, h: Held)
    requires h in st.entries && h.key.tenant in cfg.reserved && h.key.tenant == u.tenant == PROBE_TENANT
    requires h.replica != u.replica || forall i :: 0 <= i < |Writes(u)| ==> Writes(u)[i].key != h.key
    ensures h in IngestF(st, u, now, pol, cfg).entries && IngestF(st, u, now, pol, cfg).entries[h] == st.entries[h]
  {
    hide CapF, CapVictims, Unreserved, PutAll, Writes;
    var ts := TimeOf(u.timestamp, now);
    PutAllElsewhere(st.entries, Writes(u), u.replica, ts, h);
    var written := PutAll(st.entries, Writes(u), u.replica, ts);
    CapExact(written, pol, cfg);
    CapEffect(written, pol, cfg);
  }

  lemma IntactIngest(st: State, u: Update, now: int, pol: Policies, req: ProbeRequest, sha: string -> string, ts: int,
                     cfg: Config)
    requires PROBE_TENANT in cfg.reserved && Intact(st, ProbeHold(req, sha), ts)
    requires Meanwhile(Ingest(u, now, pol), req, sha, ts, cfg)
    ensures Intact(IngestF(st, u, now, pol, cfg), ProbeHold(req, sha), ts)
  {
    hide IngestF, Writes;
    var h := ProbeHold(req, sha);
    if u.tenant != PROBE_TENANT {
      IngestSparesOthers(st, u, now, pol, cfg, h);
    } else {
      var other, clock :| OtherRun(other, req) && u == ProbeUpdate(other, sha, clock);
      ProbeWrites(other, sha, clock);
      if other.backend != req.backend && ReplicaId(other.backend) == ReplicaId(req.backend) {
        ReplicaIdInjective(other.backend, req.backend);
      }
      IngestKeepsReserved(st, u, now, pol, cfg, h);
    }
  }

  lemma IntactStep(st: State, op: Op, req: ProbeRequest, sha: string -> string, ts: int, cfg: Config)
    requires PROBE_TENANT in cfg.reserved && Intact(st, ProbeHold(req, sha), ts) && Meanwhile(op, req, sha, ts, cfg)
    ensures Intact(Step(st, op, cfg), ProbeHold(req, sha), ts)
  {
    hide IngestF;
    match op
    case Ingest(u, now, pol) => IntactIngest(st, u, now, pol, req, sha, ts, cfg);
    case Publish(ev, now) =>
      if ev.tenant == PROBE_TENANT {
        var other, clock :| OtherRun(other, req) && ev == CleanupEvent(other, clock);
        if other.backend != req.backend && ReplicaId(other.backend) == ReplicaId(req.backend) {
          ReplicaIdInjective(other.backend, req.backend);
        }
      }
      assert !Erases(ev, ProbeHold(req, sha));
    case Sweep(now, pol) =>
    case Credit(extra) =>
  }

  lemma {:induction false} IntactThroughout(st: State, ops: seq<Op>, req: ProbeRequest, sha: string -> string, ts: int,
                              cfg: Config)
    requires PROBE_TENANT in cfg.reserved && Intact(st, ProbeHold(req, sha), ts)
    requires forall i :: 0 <= i < |ops| ==> Meanwhile(ops[i], req, sha, ts, cfg)
    ensures Intact(Continue(st, ops, cfg), ProbeHold(req, sha), ts)
  {
    hide Intact, Meanwhile, Step;
    if ops != [] {
      IntactThroughout(st, ops[..|ops| - 1], req, sha, ts, cfg);
      IntactStep(Continue(st, ops[..|ops| - 1], cfg), ops[|ops| - 1], req, sha, ts, cfg);
    }
  }

  /** Under any interleaving with public reports and events, sweeps, credits and
      runs for other (backend, model) pairs, from any state, both stages pass. */
  lemma ProbeAlwaysPasses(st: State, req: ProbeRequest, sha: string -> string, clock: int, now: int, pol: Policies,
                          cfg: Config,
                          beforeA: seq<Op>, nowA: int, polA: Policies, beforeB: seq<Op>, nowB: int, polB: Policies)
    requires PROBE_TENANT in cfg.reserved && req.model != "" && req.hashScheme != ""
    requires forall i :: 0 <= i < |beforeA| ==> Meanwhile(beforeA[i], req, sha, TimeOf(clock, now), cfg)
    requires forall i :: 0 <= i < |beforeB| ==> Meanwhile(beforeB[i], req, sha, TimeOf(clock, now), cfg)
    requires Young(nowA, TimeOf(clock, now), polA, cfg) && Young(nowB, TimeOf(clock, now), polB, cfg)
    ensures var atA := Continue(IngestF(st, ProbeUpdate(req, sha, clock), now, pol, cfg), beforeA, cfg);
            StageA(atA, req, sha, nowA, polA, cfg) && StageB(Continue(atA, beforeB, cfg), req, sha, nowB, polB, cfg)
  {
    hide StageA, StageB, Young, Continue, IngestF, Meanwhile;
    var ts := TimeOf(clock, now);
    var stored := IngestF(st, ProbeUpdate(req, sha, clock), now, pol, cfg);
    ProbeStored(st, req, sha, clock, now, pol, cfg);
    var atA := Continue(stored, beforeA, cfg);
    IntactThroughout(stored, beforeA, req, sha, ts, cfg);
    StagesExact(atA, req, sha, nowA, polA, cfg);
    var atB := Continue(atA, beforeB, cfg);
    IntactThroughout(atA, beforeB, req, sha, ts, cfg);
    StagesExact(atB, req, sha, nowB, polB, cfg);
  }

  // ---- The run ----

  method ReplicaInScores(scores: seq<ReplicaScore>, id: string) returns (found: bool)
    ensures found <==> id in Ids(scores)
  {
    for i := 0 to |scores|
      invariant forall j :: 0 <= j < i ==> scores[j].replica != id
    {
      if scores[i].replica == id {
        return true;
      }
    }
    return false;
  }

  /** The readings of the prober's clock and of the index's clock during a run. */
  datatype Clocks = Clocks(write: int, ingest: int, direct: int, route: int, clear: int, apply: int)

  /** Equal holds and stats mean an equal index: the primary map and every count. */
  lemma Determined(r: Rep, r': Rep, reserved: set<string>)
    requires Sound(r, reserved) && Sound(r', reserved) && r.objs == r'.objs && r.stats == r'.stats
    ensures r.prefixes == r'.prefixes && r.books == r'.books && r.byStats == r'.byStats
  {
    assert r.prefixes == r'.prefixes by {
      hide Accounts, Credited, Homed, Group;
      SameFlattening(r.prefixes, r'.prefixes, r.objs);
    }
    hide Flattens, Credited, Homed, Count, Count2, Group;
  }

  lemma SameFlattening(p: Nested, p': Nested, m: map<Held, Pointer>)
    requires Flattens(p, m) && Flattens(p', m)
    ensures p == p'
  {
    FlatKeys(p, m);
    FlatKeys(p', m);
    forall k | k in p ensures p[k] == p'[k] {
      forall r ensures r in p[k] <==> r in p'[k] ensures r in p[k] ==> p[k][r] == p'[k][r] {
        FlatAt(p, m, Held(k, r));
        FlatAt(p', m, Held(k, r));
      }
    }
  }

  /** Holds that survive a write and an erasure with the same entries are held by
      the same pointers. */
  lemma SamePointers(o: map<Held, Pointer>, m: seq<Held>, o1: map<Held, Pointer>, m1: seq<Held>, o2: map<Held, Pointer>)
    requires Inherits(o, m, o1, m1) && (forall h :: h in o2 ==> h in o1 && o2[h] == o1[h]) && o2.Keys == o.Keys
    ensures o2 == o
  {
    forall h | h in o ensures o2[h] == o[h] {
      assert h in o2.Keys;
    }
  }

  lemma InheritsThenDrops(o: map<Held, Pointer>, m: seq<Held>, o1: map<Held, Pointer>, m1: seq<Held>,
                          o2: map<Held, Pointer>)
    requires Inherits(o, m, o1, m1) && forall h :: h in o2 ==> h in o1 && o2[h] == o1[h]
    ensures Descends(o, m, o2, m1)
  {}

  /** Stage A: the entry is found by a direct lookup. */
  method CheckLanded(ix: Index, req: ProbeRequest, sha: string -> string, now: int, pol: Policies) returns (ok: bool)
    requires ix.Valid()
    ensures ok <==> StageA(ix.View(), req, sha, now, pol, ix.cfg)
  {
    hide Sound, StoredIn, LookupF, HitsF, TtlFor, BestFirst;
    var scores, hits := LookupWithHits(ix, ProbeLookup(req, sha), now, pol);
    ok := ReplicaInScores(scores, ReplicaId(req.backend));
  }

  /** Stage B: routing finds it as a prefix match. */
  method CheckRouted(ix: Index, req: ProbeRequest, sha: string -> string, now: int, pol: Policies) returns (ok: bool)
    requires ix.Valid()
    ensures ok <==> StageB(ix.View(), req, sha, now, pol, ix.cfg)
  {
    hide Sound, StoredIn, RouteStrategy, RouteScores, RouteHits, TtlFor, BestFirst;
    var res := LookupRoute(ix, ProbeLookup(req, sha), now, pol);
    if !res.strategy.PrefixMatch? {
      return false;
    }
    ok := ReplicaInScores(res.scores, ReplicaId(req.backend));
  }

  /** Stages A and B; the caller cleans up. */
  method RunStages(ix: Index, req: ProbeRequest, sha: string -> string, at: Clocks, pol: Policies) returns (result: ProbeResult)
    requires ix.Valid()
    modifies ix`prefixes, ix`arena, ix`books, ix`objs, ix`home, ix`stats, ix`replicasByModel
    ensures ix.Valid() && Inherits(old(ix.objs), old(ix.home), ix.objs, ix.home)
    ensures ix.View() == IngestF(old(ix.View()), ProbeUpdate(req, sha, at.write), at.ingest, pol, ix.cfg)
    ensures result.ingest == if StageA(ix.View(), req, sha, at.direct, pol, ix.cfg) then Ok else Failed
    ensures result.routing == if result.ingest.Failed? then Skipped
                              else if StageB(ix.View(), req, sha, at.route, pol, ix.cfg) then Ok else Failed
    ensures result.t2 == Skipped
  {
    hide Sound, StoredIn, IngestF, StageA, StageB, Inherits;
    ix.Ingest(ProbeUpdate(req, sha, at.write), at.ingest, pol);
    var landed := CheckLanded(ix, req, sha, at.direct, pol);
    if !landed {
      return ProbeResult(Failed, Skipped, Skipped);
    }
    var routed := CheckRouted(ix, req, sha, at.route, pol);
    return ProbeResult(Ok, if routed then Ok else Failed, Skipped);
  }

  /** `Run`: the stages, then always the cleanup. */
  method RunProbe(ix: Index, req: ProbeRequest, sha: string -> string, at: Clocks,
                  pol: Policies) returns (result: ProbeResult)
    requires ix.Valid() && ix.cfg.reserved == {PROBE_TENANT}
    modifies ix`prefixes, ix`arena, ix`books, ix`objs, ix`home, ix`stats, ix`replicasByModel
    ensures ix.Valid() && NoResidue(ix.View(), req) && Descends(old(ix.objs), old(ix.home), ix.objs, ix.home)
    ensures old(NoResidue(ix.View(), req) && WithinCap(ix.Stored(), ix.cfg)) ==>
              && ix.View() == old(ix.View()) && ix.objs == old(ix.objs)
              && ix.prefixes == old(ix.prefixes) && ix.books == old(ix.books) && ix.replicasByModel == old(ix.replicasByModel)
    ensures var ts := TimeOf(at.write, at.ingest);
            && (result.ingest.Ok? <==> req.hashScheme != "" && Young(at.direct, ts, pol, ix.cfg))
            && (result.ingest.Ok? ==> (result.routing.Ok? <==> req.model != "" && Young(at.route, ts, pol, ix.cfg)))
            && (result.ingest.Failed? <==> result.routing.Skipped?)
  {
    hide Sound, StoredIn, IngestF, EventF, Inherits, Descends, TtlFor, StageA, StageB, Young, Unreserved, NoResidue;
    ghost var was, st, o, m, reserved := ix.Now(), ix.View(), ix.objs, ix.home, ix.cfg.reserved;
    result := RunStages(ix, req, sha, at, pol);
    ghost var st1, o1, m1 := ix.View(), ix.objs, ix.home;
    StagesExact(st1, req, sha, at.direct, pol, ix.cfg);
    StagesExact(st1, req, sha, at.route, pol, ix.cfg);
    if req.hashScheme != "" {
      ProbeStored(st, req, sha, at.write, at.ingest, pol, ix.cfg);
    }
    ix.ApplyEvent(CleanupEvent(req, at.clear), at.apply);
    CleanupLeavesNothing(st1, req, at.clear, at.apply);
    InheritsThenDrops(o, m, o1, m1, ix.objs);
    if NoResidue(st, req) && WithinCap(st.entries, ix.cfg) {
      ProbeIsIdentity(st, req, sha, at.write, at.ingest, pol, ix.cfg, at.clear, at.apply);
      SoundCounts(was, reserved, "");
      SoundCounts(ix.Now(), reserved, "");
      SamePointers(o, m, o1, m1, ix.objs);
      Determined(ix.Now(), was, reserved);
    }
  }
}
