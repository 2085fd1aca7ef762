/** What a delivered reply stands on, when anything may have happened between the
    look that found the match and its delivery, and between the delivery and each
    increment (internal/index/types.go:285-314, internal/index/accounting.go:29-45).
 */
module Deliveries {
  import opened Ordering
  import opened Domain
  import opened Policy
  import opened IndexModel
  import opened LookupModel
  import opened Ranking
  import opened Runs
  import opened Bookkeeping
  import opened Lookup
  import opened Routing
  import opened Response
  import opened Histories

  // ---- Entries over time ----

  lemma InheritsNext(m: Moment, turn: Turn, m': Moment, env: Env)
    requires WellKept(m, env) && Next(m, turn, m', env)
    ensures Inherits(m.rep.objs, m.rep.home, m'.rep.objs, m'.rep.home)
  {
    hide Sound, StateOf, Settled, Response.Delivered, IngestF, EventF, SweepF, LookStep, Used, ResolveChain, ShortAnswer, Checked;
    assert Inherits(m.rep.objs, m.rep.home, m.rep.objs, m.rep.home) && (m'.rep.objs == m.rep.objs && m'.rep.home == m.rep.home ==>
      Inherits(m.rep.objs, m.rep.home, m'.rep.objs, m'.rep.home));
    hide Inherits;
  }

  /** A hold is found with the entry it had, or with one allocated since. */
  lemma {:induction false} DescendsThroughout(ms: seq<Moment>, turns: seq<Turn>, env: Env, i: nat, j: nat)
    requires History(ms, turns, env) && i <= j < |ms|
    ensures Descends(ms[i].rep.objs, ms[i].rep.home, ms[j].rep.objs, ms[j].rep.home)
    decreases j
  {
    hide Next, WellKept, Inherits;
    if i < j {
      DescendsThroughout(ms, turns, env, i, j - 1);
      KeptThroughout(ms, turns, env, j - 1);
      InheritsNext(ms[j - 1], turns[j - 1], ms[j], env);
      InheritsDescends(ms[j - 1].rep.objs, ms[j - 1].rep.home, ms[j].rep.objs, ms[j].rep.home);
      DescendsTransitive(ms[i].rep.objs, ms[i].rep.home, ms[j - 1].rep.objs, ms[j - 1].rep.home, ms[j].rep.objs, ms[j].rep.home);
    }
  }

  /** A hold that is never dropped keeps its entry. */
  lemma {:induction false} KeptHoldKeepsEntry(ms: seq<Moment>, turns: seq<Turn>, env: Env, h: Held, i: nat, j: nat)
    requires History(ms, turns, env) && i <= j < |ms|
    requires forall l :: i <= l <= j ==> h in ms[l].rep.objs
    ensures h in ms[i].rep.objs && h in ms[j].rep.objs && ms[j].rep.objs[h] == ms[i].rep.objs[h]
    decreases j
  {
    hide Next, WellKept;
    if i < j {
      KeptHoldKeepsEntry(ms, turns, env, h, i, j - 1);
      KeptThroughout(ms, turns, env, j - 1);
      InheritsNext(ms[j - 1], turns[j - 1], ms[j], env);
      assert h in ms[j].rep.objs;
    }
  }

  // ---- When a match was found ----

  /** The lookup of `t` found at moment `k` what it brings to moment `n`. */
  ghost predicate FoundAt(ms: seq<Moment>, turns: seq<Turn>, env: Env, t: Ticket, k: nat, n: nat) {
    && k < n < |ms| && k < |turns| && turns[k].LookAgain? && turns[k].ticket == t
    && Ready(ms[n], t) && UnderWay(ms[k], t) && ms[k].pending[t].phase.Matching?
    && ms[k].pending[t] == ms[n].pending[t].(phase := Matching)
    && LookStep(Matching, QueryAt(ms, turns, env, t, k), ms[k].rep.stats, env.cfg.ranker, ms[k].rep.objs,
                turns[k].pol.IsLFU(ms[k].pending[t].req.tenant), ms[n].pending[t].phase)
  }

  /** The query of that look, on the entries stored at that moment. */
  ghost function QueryAt(ms: seq<Moment>, turns: seq<Turn>, env: Env, t: Ticket, k: nat): Query
    requires k < |ms| && k < |turns| && turns[k].LookAgain? && t in ms[k].pending
  {
    Ask(ms[k].rep, ms[k].pending[t], turns[k].now, turns[k].pol, env.cfg)
  }

  lemma PendingNext(m: Moment, turn: Turn, m': Moment, env: Env, t: Ticket)
    requires Next(m, turn, m', env) && t in m'.pending
    ensures t !in m.pending ==> m'.pending[t].phase.Matching?
    ensures t in m.pending && m'.pending[t] != m.pending[t] ==>
              turn.LookAgain? && turn.ticket == t && UnderWay(m, t) && LookNext(m, t, turn.now, turn.pol, m', env)
  {
    hide Sound, StateOf, Response.Delivered, IngestF, EventF, SweepF, LookStep, Inherits, Used, ResolveChain, ShortAnswer, Checked;
  }

  lemma OnlyMatchingMatches(phase: Phase, q: Query, stats: map<StatsKey, StatEntry>, ranker: RankerConfig, objs: map<Held, Pointer>,
                            lfu: bool, next: Phase)
    requires LookStep(phase, q, stats, ranker, objs, lfu, next) && !phase.Found? && next.Found? && next.result.strategy.PrefixMatch?
    ensures phase.Matching?
  {
    MissIsNoMatch(q.es, q.req);
  }

  /** Every prefix match waiting for delivery was found by one earlier look. */
  lemma {:induction false} MatchWasFound(ms: seq<Moment>, turns: seq<Turn>, env: Env, t: Ticket, n: nat) returns (k: nat)
    requires History(ms, turns, env) && n < |ms|
    requires Ready(ms[n], t) && ms[n].pending[t].phase.result.strategy.PrefixMatch?
    ensures FoundAt(ms, turns, env, t, k, n)
  {
    hide Next, LookStep, WellKept;
    assert n > 0;
    var m, turn, m' := ms[n - 1], turns[n - 1], ms[n];
    assert Next(m, turn, m', env);
    PendingNext(m, turn, m', env, t);
    if m'.pending[t] == m.pending[t] {
      k := MatchWasFound(ms, turns, env, t, n - 1);
    } else {
      var fl := m.pending[t];
      OnlyMatchingMatches(fl.phase, Ask(m.rep, fl, turn.now, turn.pol, env.cfg), m.rep.stats, env.cfg.ranker, m.rep.objs,
                          turn.pol.IsLFU(fl.req.tenant), m'.pending[t].phase);
      k := n - 1;
    }
  }

  lemma FoundHits(ms: seq<Moment>, turns: seq<Turn>, env: Env, t: Ticket, k: nat, n: nat)
    requires FoundAt(ms, turns, env, t, k, n) && ms[n].pending[t].phase.result.strategy.PrefixMatch?
    ensures var q, result := QueryAt(ms, turns, env, t, k), ms[n].pending[t].phase.result;
            && result.hits == HitsF(q, ms[k].rep.objs, turns[k].pol.IsLFU(ms[k].pending[t].req.tenant))
            && Lists(result.scores, LookupF(q, ms[k].rep.stats, env.cfg.ranker))
  {
    hide HitsF, LookupF, Lists;
  }

  // ---- Late credit ----

  /** A hold dropped after the look and taken up again has a new entry, which the
      match does not credit, however late delivery and increments come. */
  lemma LateCreditMissesSuccessor(ms: seq<Moment>, turns: seq<Turn>, env: Env, t: Ticket, k: nat, n: nat, h: Held, j: nat, l: nat, r: string)
    requires History(ms, turns, env) && FoundAt(ms, turns, env, t, k, n) && ms[n].pending[t].phase.result.strategy.PrefixMatch?
    requires k <= j <= l < |ms| && h !in ms[j].rep.objs && h in ms[l].rep.objs
    requires r in ms[n].pending[t].phase.result.hits
    ensures ms[l].rep.objs[h] !in ms[n].pending[t].phase.result.hits[r]
  {
    hide Next, WellKept, FoundAt, HitsF, LookupF, Lists, EntriesOf;
    var q := FoundQuery(ms, turns, env, t, k, n);
    var lfu := turns[k].pol.IsLFU(ms[k].pending[t].req.tenant);
    KeptThroughout(ms, turns, env, k);
    var rep := ms[k].rep;
    assert Sound(rep, env.cfg.reserved) by { KeptSound(ms[k], env); }
    FoundHits(ms, turns, env, t, k, n);
    HitsAllocated(rep, env.cfg.reserved, q, lfu);
    SoundSize(rep, env.cfg.reserved);
    DescendsThroughout(ms, turns, env, k, j);
    DescendsThroughout(ms, turns, env, j, l);
  }

  lemma FoundQuery(ms: seq<Moment>, turns: seq<Turn>, env: Env, t: Ticket, k: nat, n: nat) returns (q: Query)
    requires FoundAt(ms, turns, env, t, k, n)
    ensures k < |ms| && k < |turns| && turns[k].LookAgain? && t in ms[k].pending && Ready(ms[n], t)
    ensures q == QueryAt(ms, turns, env, t, k) && q.es == EntriesOf(ms[k].rep)
  {
    q := QueryAt(ms, turns, env, t, k);
  }

  /** The hold behind hit `i` of a replica: a block of its run, or the exact prefix. */
  function HoldOfHit(req: LookupRequest, r: string, i: nat): Held {
    if ChainBearing(req) && i < |req.blockHashes| then Block(req, i, r) else ExactHeld(req, r)
  }

  /** A hold kept since the look still has the entry the match credits. */
  lemma LateCreditReachesSurvivor(ms: seq<Moment>, turns: seq<Turn>, env: Env, t: Ticket, k: nat, n: nat, r: string, i: nat, l: nat)
    requires History(ms, turns, env) && FoundAt(ms, turns, env, t, k, n) && ms[n].pending[t].phase.result.strategy.PrefixMatch?
    requires r in ms[n].pending[t].phase.result.hits && i < |ms[n].pending[t].phase.result.hits[r]| && k <= l < |ms|
    requires forall j :: k <= j <= l ==> HoldOfHit(QueryAt(ms, turns, env, t, k).req, r, i) in ms[j].rep.objs
    ensures ms[l].rep.objs[HoldOfHit(QueryAt(ms, turns, env, t, k).req, r, i)] == ms[n].pending[t].phase.result.hits[r][i]
  {
    hide Next, WellKept, LookupF, HitsF, Lists, EntriesOf, LookStep, HoldOfHit;
    var q := QueryAt(ms, turns, env, t, k);
    FoundHits(ms, turns, env, t, k, n);
    KeptHoldKeepsEntry(ms, turns, env, HoldOfHit(q.req, r, i), k, l);
    HitAt(q, ms[k].rep.objs, turns[k].pol.IsLFU(ms[k].pending[t].req.tenant), r, i);
  }

  lemma HitAt(q: Query, objs: map<Held, Pointer>, lfu: bool, r: string, i: nat)
    requires r in HitsF(q, objs, lfu) && i < |HitsF(q, objs, lfu)[r]| && HoldOfHit(q.req, r, i) in objs
    ensures HitsF(q, objs, lfu)[r][i] == objs[HoldOfHit(q.req, r, i)]
  {
    hide ServingSet;
    if ChainBearing(q.req) {
      RunLenCharacterized(q, r, RunLen(q, r));
    }
  }

  /** What a look puts up for credit: under a frequency policy, for every replica that
      matches, the entry of each block of its run, or of the exact prefix if that is
      worth something; otherwise nothing. */
  lemma HitsExactly(q: Query, objs: map<Held, Pointer>, lfu: bool, stats: map<StatsKey, StatEntry>, ranker: RankerConfig, r: string)
    requires q.es.Keys == objs.Keys
    ensures var hits, m := HitsF(q, objs, lfu), LookupF(q, stats, ranker);
            && (r in hits <==> lfu && r in m && m[r].matched > 0)
            && (r in hits && ChainBearing(q.req) ==>
                  && |hits[r]| == RunLen(q, r) <= |q.req.blockHashes|
                  && forall i :: 0 <= i < |hits[r]| ==> Block(q.req, i, r) in objs && hits[r][i] == objs[Block(q.req, i, r)])
            && (r in hits && !ChainBearing(q.req) ==> ExactHeld(q.req, r) in objs && hits[r] == [objs[ExactHeld(q.req, r)]])
  {
    hide ServingSet, FreshnessAt, BaseScore, DistinguishingPower, RunningSum, Oldest, RunTier;
    if ChainBearing(q.req) {
      RunLenCharacterized(q, r, RunLen(q, r));
      forall i | 0 <= i < RunLen(q, r) ensures Block(q.req, i, r) in objs {
        assert Holds(q, r, i);
      }
      hide RunLen, Holds;
    }
  }

  // ---- What a served match was told ----

  /** Everything the match claims about the replica was its last word at the look:
      each block of its leading run, or the exact prefix, was reported by it, not
      removed since, and fresh. */
  ghost predicate Told(ops: seq<Op>, q: Query, r: string, matched: int) {
    if ChainBearing(q.req) then
      && |q.req.blockHashes| == |q.req.blockTokenCounts| && 0 < RunLen(q, r) <= |q.req.blockHashes|
      && matched == RunningSum(q.req.blockTokenCounts, RunLen(q, r))
      && forall i: nat :: i < RunLen(q, r) ==>
           && LastReport(ops, Block(q.req, i, r)).Some? && q.now - LastReport(ops, Block(q.req, i, r)).value.lastSeen < q.ttl
    else
      && LastReport(ops, ExactHeld(q.req, r)).Some? && LastReport(ops, ExactHeld(q.req, r)).value.tokens == matched
      && q.now - LastReport(ops, ExactHeld(q.req, r)).value.lastSeen < q.ttl
  }

  lemma MatchIsTold(ops: seq<Op>, cfg: Config, q: Query, stats: map<StatsKey, StatEntry>, ranker: RankerConfig, r: string)
    requires q.es == Runs.Run(ops, cfg).entries && r in LookupF(q, stats, ranker)
    ensures Told(ops, q, r, LookupF(q, stats, ranker)[r].matched)
  {
    hide ServingSet, DistinguishingPower, AtLeastAsDeep, FreshnessAt;
    if ChainBearing(q.req) {
      hide Runs.Run, LastReport;
      assert q == Query(Runs.Run(ops, cfg).entries, q.req, q.now, q.ttl);
      NeverAWrongAnswer(ops, cfg, q.req, q.now, q.ttl, r);
    } else {
      hide Runs.Run, LastReport;
      assert q == Query(Runs.Run(ops, cfg).entries, q.req, q.now, q.ttl);
      NeverAWrongExactAnswer(ops, cfg, q.req, q.now, q.ttl, r);
    }
  }

  lemma SurvivorIsListed(reply: Reply, result: LookupResult, req: RouteRequest, inp: Inputs, pol: Policies, es: Entries,
                         digest: string -> nat, x: ReplicaScore)
    requires Response.Delivered(reply, result, req, inp, pol, es, digest) && reply.reason == PREFIX_MATCH && x in reply.scores
    ensures result.strategy.PrefixMatch? && x in result.scores
  {
    hide Serving, IsPick;
    KeptExact(result.scores, pol.MinimumMatchedTokens(req.tenant), x);
  }

  /** Every replica of every PREFIX_MATCH reply was found by one earlier look. */
  lemma ServedMatchWasFound(ms: seq<Moment>, turns: seq<Turn>, env: Env, n: nat, x: ReplicaScore) returns (k: nat)
    requires History(ms, turns, env) && n < |turns| && turns[n].Deliver? && Ready(ms[n], turns[n].ticket)
    requires |ms[n + 1].answers| > |ms[n].answers| && ms[n + 1].answers[|ms[n].answers|].Replied?
    requires ms[n + 1].answers[|ms[n].answers|].reply.reason == PREFIX_MATCH && x in ms[n + 1].answers[|ms[n].answers|].reply.scores
    ensures FoundAt(ms, turns, env, turns[n].ticket, k, n)
    ensures var m := LookupF(QueryAt(ms, turns, env, turns[n].ticket, k), ms[k].rep.stats, env.cfg.ranker);
            x.replica in m && m[x.replica] == x
  {
    hide WellKept, LookStep, LookupF, HitsF, Lists, StateOf, Response.Delivered, OpAt;
    var t, pol := turns[n].ticket, turns[n].pol;
    var fl, reply := ms[n].pending[t], ms[n + 1].answers[|ms[n].answers|].reply;
    assert DeliverNext(ms[n], t, pol, ms[n + 1], env) by { assert Next(ms[n], turns[n], ms[n + 1], env); }
    hide Next;
    SurvivorIsListed(reply, ResultOf(ms[n], t, pol), fl.req, fl.inp, pol, EntriesOf(ms[n].rep), env.digest, x);
    k := MatchWasFound(ms, turns, env, t, n);
    FoundHits(ms, turns, env, t, k, n);
    ListedIn(fl.phase.result.scores, LookupF(QueryAt(ms, turns, env, t, k), ms[k].rep.stats, env.cfg.ranker), x);
  }

  /** Every replica of every PREFIX_MATCH reply in every history was told so: by the
      operations of that history up to the look that found it. */
  lemma ServedMatchWasTold(ms: seq<Moment>, turns: seq<Turn>, env: Env, n: nat, x: ReplicaScore) returns (k: nat)
    requires History(ms, turns, env) && n < |turns| && turns[n].Deliver? && Ready(ms[n], turns[n].ticket)
    requires |ms[n + 1].answers| > |ms[n].answers| && ms[n + 1].answers[|ms[n].answers|].Replied?
    requires ms[n + 1].answers[|ms[n].answers|].reply.reason == PREFIX_MATCH && x in ms[n + 1].answers[|ms[n].answers|].reply.scores
    ensures FoundAt(ms, turns, env, turns[n].ticket, k, n)
    ensures Told(Ops(ms, turns, env, k), QueryAt(ms, turns, env, turns[n].ticket, k), x.replica, x.matched)
  {
    hide Next, WellKept, LookStep, LookupF, StateOf, Told, Runs.Run, OpAt;
    k := ServedMatchWasFound(ms, turns, env, n, x);
    StoredIsRun(ms, turns, env, k);
    StateEntries(ms[k].rep);
    MatchIsTold(Ops(ms, turns, env, k), env.cfg, QueryAt(ms, turns, env, turns[n].ticket, k), ms[k].rep.stats, env.cfg.ranker, x.replica);
  }

  lemma StateEntries(r: Rep)
    ensures StateOf(r).entries == EntriesOf(r)
  {}

  lemma ListedIn(scores: seq<ReplicaScore>, m: Scores, x: ReplicaScore)
    requires Lists(scores, m) && x in scores
    ensures x.replica in m && m[x.replica] == x
  {
    assert x.replica in Ids(scores);
  }

  // ---- Every reply keeps the response contract ----

  /** Scores are present iff there is a hint, and ranked. */
  ghost predicate Proper(reply: Reply) {
    && (reply.scores != [] <==> reply.reason in {PREFIX_MATCH, TENANT_HOT, AFFINITY_HINT})
    && BestFirst(reply.scores)
  }

  ghost predicate AllProper(answers: seq<Answer>) {
    forall i :: 0 <= i < |answers| && answers[i].Replied? ==> Proper(answers[i].reply)
  }

  lemma DeliveryIsSettled(m: Moment, turn: Turn, m': Moment, env: Env)
    requires WellKept(m, env) && Next(m, turn, m', env) && turn.Deliver? && Ready(m, turn.ticket)
    ensures DeliverNext(m, turn.ticket, turn.pol, m', env)
    ensures var result := ResultOf(m, turn.ticket, turn.pol); Coherent(result, |m.rep.arena|) && BestFirst(result.scores)
  {
    hide Sound, LookNext, Response.Delivered, Used, Moves, Coherent, ByteBefore, ResolveChain, ShortAnswer, Checked;
    var fl := m.pending[turn.ticket];
    assert Settled(fl, |m.rep.arena|);
    GateCoherent(fl.phase.result, turn.pol, fl.req.tenant, |m.rep.arena|);
  }

  /** Every delivery of every history keeps the response contract under the policies
      it was made with, whatever was in force when the match was found. */
  lemma EveryDeliveryKeepsContract(ms: seq<Moment>, turns: seq<Turn>, env: Env, n: nat)
    requires History(ms, turns, env) && n < |turns| && turns[n].Deliver? && Ready(ms[n], turns[n].ticket)
    ensures |ms[n + 1].answers| == |ms[n].answers| + 1 && ms[n + 1].answers[|ms[n].answers|].Replied?
    ensures var fl, pol := ms[n].pending[turns[n].ticket], turns[n].pol;
            var reply, result := ms[n + 1].answers[|ms[n].answers|].reply, ResultOf(ms[n], turns[n].ticket, pol);
            && Proper(reply)
            && (IsDiagnosis(result.strategy) <==> reply.reason in {UNKNOWN_TENANT, UNKNOWN_MODEL, UNKNOWN_HASH_SCHEME})
            && (IsDiagnosis(result.strategy) ==> reply.reason == ReasonFor(result.strategy))
            && (reply.reason == PREFIX_MATCH ==>
                  && ClearsPrefixFloor(fl.inp, pol, fl.req.tenant)
                  && (pol.MinimumMatchedTokens(fl.req.tenant) > 0 ==>
                        forall i :: 0 <= i < |reply.scores| ==> reply.scores[i].matched >= pol.MinimumMatchedTokens(fl.req.tenant))
                  && (pol.RoutingFloorScore(fl.req.tenant) > 0.0 ==>
                        exists i :: 0 <= i < |reply.scores| && reply.scores[i].score >= pol.RoutingFloorScore(fl.req.tenant)))
  {
    hide Next, WellKept, Coherent, ByteBefore, Response.Delivered, Used, ClearsPrefixFloor;
    var fl, pol := ms[n].pending[turns[n].ticket], turns[n].pol;
    KeptThroughout(ms, turns, env, n);
    DeliveryIsSettled(ms[n], turns[n], ms[n + 1], env);
    DeliveredContract(ms[n + 1].answers[|ms[n].answers|].reply, ResultOf(ms[n], turns[n].ticket, pol), fl.req, fl.inp, pol,
                      EntriesOf(ms[n].rep), env.digest, |ms[n].rep.arena|);
  }

  /** What other turns answer carries no scores. */
  lemma OtherAnswers(m: Moment, turn: Turn, m': Moment, env: Env)
    requires Next(m, turn, m', env) && !(turn.Deliver? && Ready(m, turn.ticket))
    ensures m'.answers == m.answers || (|m'.answers| == |m.answers| + 1 && m'.answers == m.answers + [m'.answers[|m.answers|]])
    ensures m'.answers != m.answers && m'.answers[|m.answers|].Replied? ==>
              var reply := m'.answers[|m.answers|].reply; reply.scores == [] && reply.reason in {NO_HINT, TIMEOUT, POLICY_REQUIRES_CHAIN}
  {
    hide Moves, StateOf, LookStep, DeliverNext, ResolveChain, ShortAnswer, Checked;
    if turn.Arrive? {
      ShortAnswerIsEmpty(turn.req, turn.pol, env.chain, turn.deadline);
    }
  }

  /** Every reply ever given is proper. */
  lemma {:induction false} EveryReplyIsProper(ms: seq<Moment>, turns: seq<Turn>, env: Env, n: nat)
    requires History(ms, turns, env) && n < |ms|
    ensures AllProper(ms[n].answers)
  {
    hide Next, WellKept, ByteBefore, StateOf;
    if n > 0 {
      EveryReplyIsProper(ms, turns, env, n - 1);
      var m, turn := ms[n - 1], turns[n - 1];
      if turn.Deliver? && Ready(m, turn.ticket) {
        EveryDeliveryKeepsContract(ms, turns, env, n - 1);
        KeptThroughout(ms, turns, env, n - 1);
        DeliveryIsSettled(m, turn, ms[n], env);
        hide Proper, Response.Delivered, Used;
        assert ms[n].answers == m.answers + [ms[n].answers[|m.answers|]];
      } else {
        OtherAnswers(m, turn, ms[n], env);
      }
    }
  }

  /** An overlap that distinguished nobody when it was found is delivered as a match iff
      the policies at delivery have no routing floor and it clears their other floors. */
  lemma TrivialOverlapDeliveredIff(ms: seq<Moment>, turns: seq<Turn>, env: Env, k: nat, n: nat)
    requires History(ms, turns, env) && n < |turns| && turns[n].Deliver? && FoundAt(ms, turns, env, turns[n].ticket, k, n)
    requires ms[n].pending[turns[n].ticket].phase.result.strategy.PrefixMatch?
    requires TrivialOverlap(QueryAt(ms, turns, env, turns[n].ticket, k), ms[k].rep.stats, env.cfg.ranker)
    ensures var fl, pol := ms[n].pending[turns[n].ticket], turns[n].pol;
            && |ms[n + 1].answers| == |ms[n].answers| + 1 && ms[n + 1].answers[|ms[n].answers|].Replied?
            && (ms[n + 1].answers[|ms[n].answers|].reply.reason == PREFIX_MATCH <==>
                && pol.RoutingFloorScore(fl.req.tenant) <= 0.0 && ClearsPrefixFloor(fl.inp, pol, fl.req.tenant)
                && Survivors(fl.phase.result, pol, fl.req.tenant) != [])
  {
    hide Next, WellKept, LookStep, LookupF, HitsF, Lists, TrivialOverlap, Response.Delivered, Used, ClearsPrefixFloor, ByteBefore, Coherent;
    var t, pol := turns[n].ticket, turns[n].pol;
    var fl := ms[n].pending[t];
    KeptThroughout(ms, turns, env, n);
    DeliveryIsSettled(ms[n], turns[n], ms[n + 1], env);
    FoundHits(ms, turns, env, t, k, n);
    var q := QueryAt(ms, turns, env, t, k);
    TrivialOverlapIsZero(q, ms[k].rep.stats, env.cfg.ranker);
    ListedAreZero(fl.phase.result.scores, LookupF(q, ms[k].rep.stats, env.cfg.ranker));
    MatchDeliveredIff(ms[n + 1].answers[|ms[n].answers|].reply, fl.phase.result, fl.req, fl.inp, pol, EntriesOf(ms[n].rep), env.digest);
  }

  lemma MatchDeliveredIff(reply: Reply, result: LookupResult, req: RouteRequest, inp: Inputs, pol: Policies, es: Entries, digest: string -> nat)
    requires result.strategy.PrefixMatch? && Response.Delivered(reply, result, req, inp, pol, es, digest)
    requires forall x :: x in result.scores ==> x.score == 0.0
    ensures reply.reason == PREFIX_MATCH <==>
            && pol.RoutingFloorScore(req.tenant) <= 0.0 && ClearsPrefixFloor(inp, pol, req.tenant) && Survivors(result, pol, req.tenant) != []
  {
    hide Kept, Serving, IsPick, ClearsPrefixFloor, AffinityApplies;
    var left := Survivors(result, pol, req.tenant);
    if left != [] {
      assert left[0].score == 0.0 by {
        KeptExact(result.scores, pol.MinimumMatchedTokens(req.tenant), left[0]);
      }
    }
  }
}
