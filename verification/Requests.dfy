/** What a route request comes to, in the terms of its own fields and of the tenant's
    policy row (internal/server/inferencecache_service.go:185-689,
    internal/server/policy.go:92-320): what is looked up for it, what is answered at
    once, which floors and switches decide the reply, and that every replica of a match
    was reported under the request's own tenant, model, scheme and adapter.
 */
module Requests {
  import opened Domain
  import opened Policy
  import opened IndexModel
  import opened Eviction
  import opened LookupModel
  import opened Ranking
  import opened Runs
  import opened Reports
  import opened Bookkeeping
  import opened Routing
  import opened Response
  import opened Scoring
  import opened Histories
  import opened Deliveries

  // ---- What is looked up ----

  predicate NamesChain(req: RouteRequest) {
    |req.blockHashes| > 0 || |req.blockTokenCounts| > 0
  }

  /** The tokens that stand for the request when it names no chain and no hash. */
  function TokensOf(req: RouteRequest): seq<int> {
    if req.tokenIds != [] then req.tokenIds else if req.prompt.Tokenized? then req.prompt.tokens else []
  }

  /** A chain, if it counts, and a hash are looked up as sent; tokens by their
      fingerprint; anything malformed, too long, too short or untokenized fails open. */
  lemma LookedUpExactly(req: RouteRequest, enabled: bool, chain: Fingerprint)
    ensures var r, tokens := ResolveChain(req, enabled, chain), TokensOf(req);
            var named := req.prefixHash != "" || (enabled && NamesChain(req));
            && (named && enabled ==>
                  if |req.blockHashes| != |req.blockTokenCounts| then r.None?
                  else r == Some(Inputs(req.blockHashes, req.blockTokenCounts, req.prefixHash, req.prefixTokenCount)))
            && (named && !enabled ==> r == Some(Inputs([], [], req.prefixHash, req.prefixTokenCount)))
            && (!named && tokens != [] ==>
                  if |tokens| > 0x10_0000 || |chain(tokens).0| == 0 then r.None?
                  else
                    && r.Some? && r.value.exactPrefixHash == chain(tokens).0[|chain(tokens).0| - 1]
                    && (PlainSum(chain(tokens).1, |chain(tokens).1|) - r.value.exactTokenCount) % 0x1_0000_0000 == 0
                    && r.value.blockHashes == (if enabled then chain(tokens).0 else [])
                    && r.value.blockTokenCounts == (if enabled then chain(tokens).1 else []))
            && (!named && tokens == [] ==>
                  if req.prompt.NoPrompt? && !NamesChain(req) then r == Some(Inputs([], [], "", req.prefixTokenCount)) else r.None?)
  {
    var tokens := TokensOf(req);
    SumIsTotal(chain(tokens).1, |chain(tokens).1|);
    hide RunningSum, PlainSum;
  }

  // ---- What is answered at once ----

  /** The switches of a tenant: what its policy row says, else the default. */
  lemma SwitchesExactly(pol: Policies, t: string)
    ensures var row := t in pol.policies;
            && (pol.AffinityRoutingEnabled(t) <==> !(row && pol.policies[t].affinityRouting == Some(false)))
            && (pol.TenantHotEnabled(t) <==> !(row && pol.policies[t].enableTenantHot == Some(false)))
            && (pol.ChainMatchingEnabled(t) <==> !(row && pol.policies[t].enableChainMatching == Some(false)))
            && (pol.ChainRequired(t) <==> row && pol.policies[t].requireChain == Some(true))
  {}

  /** The lookup is worth making: the request clears the tenant's prefix minimum. */
  predicate LongEnough(pol: Policies, t: string, inp: Inputs) {
    t in pol.policies && pol.policies[t].minimumPrefixTokens > 0 ==>
      (if inp.blockTokenCounts != [] then RunningSum(inp.blockTokenCounts, |inp.blockTokenCounts|) else inp.exactTokenCount)
      >= pol.policies[t].minimumPrefixTokens
  }

  /** A request gets as far as the index iff it is not for the probe tenant, in time,
      with a chain where the tenant demands one, resolvable, and long enough unless an
      affinity pick may still be made. Only a passed deadline is answered TIMEOUT, and
      only a missing chain POLICY_REQUIRES_CHAIN. */
  lemma AnsweredAtOnceExactly(req: RouteRequest, pol: Policies, chain: Fingerprint, deadline: Deadline)
    ensures var t, short := req.tenant, ShortAnswer(req, pol, chain, deadline);
            var row := t in pol.policies;
            var enabled := !(row && pol.policies[t].enableChainMatching == Some(false));
            var inp := ResolveChain(req, enabled, chain);
            var unchained := row && pol.policies[t].requireChain == Some(true)
                             && !(|req.blockHashes| > 0 && |req.blockHashes| == |req.blockTokenCounts|);
            && (short.None? <==>
                && t != PROBE_TENANT && deadline.Never? && !unchained && inp.Some?
                && (LongEnough(pol, t, inp.value) || !(row && pol.policies[t].affinityRouting == Some(false))))
            && (short == Some(POLICY_REQUIRES_CHAIN) <==> t != PROBE_TENANT && !deadline.AtStart? && unchained)
            && (short == Some(TIMEOUT) ==> t != PROBE_TENANT && !deadline.Never?)
            && (t != PROBE_TENANT && deadline.AtStart? ==> short == Some(TIMEOUT))
  {
    hide ResolveChain, RunningSum;
  }

  // ---- Floors and switches of the reply ----

  /** The score clears what the tenant's row, or the default, asks of a match. */
  predicate GoodEnough(pol: Policies, t: string, x: ReplicaScore) {
    if t in pol.policies then
      && (pol.policies[t].minimumMatchedTokens > 0 ==> x.matched >= pol.policies[t].minimumMatchedTokens)
      && match pol.policies[t].routingFloorScore
         case None => x.score >= 0.1
         case Some(f) => f > 0.0 ==> x.score >= f
    else x.matched >= 64 && x.score >= 0.1
  }

  /** The score clears the tenant's matched-tokens minimum, or the default. */
  predicate DeepEnough(pol: Policies, t: string, x: ReplicaScore) {
    if t in pol.policies then pol.policies[t].minimumMatchedTokens > 0 ==> x.matched >= pol.policies[t].minimumMatchedTokens
    else x.matched >= 64
  }

  lemma SurvivorsExactly(result: LookupResult, pol: Policies, t: string, x: ReplicaScore)
    ensures x in Survivors(result, pol, t) <==> x in result.scores && DeepEnough(pol, t, x)
  {
    KeptExact(result.scores, pol.MinimumMatchedTokens(t), x);
    hide Kept;
  }

  lemma GoodEnoughPasses(x: ReplicaScore, pol: Policies, t: string)
    ensures Passes(x, pol, t) <==> GoodEnough(pol, t, x)
  {}

  lemma LongEnoughClears(pol: Policies, t: string, inp: Inputs)
    ensures ClearsPrefixFloor(inp, pol, t) <==> LongEnough(pol, t, inp)
  {
    hide RunningSum;
  }

  ghost predicate HasGoodScore(result: LookupResult, pol: Policies, t: string) {
    exists x :: x in result.scores && GoodEnough(pol, t, x)
  }

  /** The tenant has not switched affinity off, the request is keyed, well formed and
      has a seed, and somebody serves its scope. */
  ghost predicate MayPick(es: Entries, req: RouteRequest, inp: Inputs, pol: Policies) {
    && !(req.tenant in pol.policies && pol.policies[req.tenant].affinityRouting == Some(false))
    && req.tenant != "" && req.model != "" && req.hashScheme != "" && |req.blockHashes| == |req.blockTokenCounts|
    && (inp.blockHashes != [] || inp.exactPrefixHash != "")
    && exists h :: h in es && h.key.tenant == req.tenant && h.key.model == req.model && h.key.hashScheme == req.hashScheme
  }

  /** One replica that serves the request's scope, with no score and no match claimed. */
  ghost predicate BareAssignment(scores: seq<ReplicaScore>, es: Entries, req: RouteRequest) {
    && |scores| == 1 && scores[0].score == 0.0 && scores[0].matched == 0 && scores[0].hitProb == 0.0
    && exists h :: h in es && h.replica == scores[0].replica && h.key.tenant == req.tenant && h.key.model == req.model
                   && h.key.hashScheme == req.hashScheme
  }

  /** When the reply says what. */
  ghost predicate ReasonFits(reply: Reply, result: LookupResult, req: RouteRequest, inp: Inputs, pol: Policies, es: Entries) {
    var long, s := LongEnough(pol, req.tenant, inp), result.strategy;
    var matched, warm := s.PrefixMatch? && long && HasGoodScore(result, pol, req.tenant), s.TenantHot? && long;
    var rest := !matched && !warm && !s.UnknownTenant? && !s.UnknownModel? && !s.UnknownHashScheme?;
    && (reply.reason == PREFIX_MATCH <==> matched)
    && (reply.reason == TENANT_HOT <==> warm)
    && (reply.reason == UNKNOWN_TENANT <==> s.UnknownTenant?)
    && (reply.reason == UNKNOWN_MODEL <==> s.UnknownModel?)
    && (reply.reason == UNKNOWN_HASH_SCHEME <==> s.UnknownHashScheme?)
    && (reply.reason == AFFINITY_HINT <==> rest && MayPick(es, req, inp, pol))
    && (reply.reason == NO_HINT <==> rest && !MayPick(es, req, inp, pol))
    && (matched ==> forall x :: x in reply.scores <==> x in result.scores && DeepEnough(pol, req.tenant, x))
    && (warm ==> reply.scores == result.scores)
    && (reply.reason == AFFINITY_HINT ==> BareAssignment(reply.scores, es, req))
  }

  /** What the reply says, for every result and policy row: a match iff the request is
      long enough and some replica good enough; warm replicas iff it is long enough; a
      diagnosis always; else an affinity pick iff the tenant has not switched it off,
      the request is keyed and well formed and has a seed, and somebody serves its
      scope; else nothing. */
  lemma ReplyExactly(reply: Reply, result: LookupResult, req: RouteRequest, inp: Inputs, pol: Policies, es: Entries,
                     digest: string -> nat, size: nat)
    requires Coherent(result, size) && BestFirst(result.scores) && Delivered(reply, result, req, inp, pol, es, digest)
    ensures ReasonFits(reply, result, req, inp, pol, es)
  {
    hide GoodEnough, LongEnough, ClearsPrefixFloor, Passes, Coherent, BestFirst, IsPick, Survivors, AffinityApplies, SeedOf, Serving, MayPick,
         HasGoodScore, DeepEnough, BareAssignment;
    MatchedExactly(result, inp, pol, req.tenant);
    LongEnoughClears(pol, req.tenant, inp);
    PickExactly(es, req, inp, pol);
    if reply.reason == AFFINITY_HINT && IsAffinity(reply, es, req, inp, digest) {
      AssignmentIsBare(reply, es, req, inp, digest);
    }
    forall x ensures x in Survivors(result, pol, req.tenant) <==> x in result.scores && DeepEnough(pol, req.tenant, x) {
      SurvivorsExactly(result, pol, req.tenant, x);
    }
  }

  lemma AssignmentIsBare(reply: Reply, es: Entries, req: RouteRequest, inp: Inputs, digest: string -> nat)
    requires IsAffinity(reply, es, req, inp, digest)
    ensures BareAssignment(reply.scores, es, req)
  {
    var scope := ScopeKey(req.tenant, req.model, req.hashScheme);
    assert reply.scores[0].replica in Serving(es.Keys, scope);
    var h :| h in ScopeHeld(es.Keys, scope) && ReplicaOf(h) == reply.scores[0].replica;
  }

  lemma MatchedExactly(result: LookupResult, inp: Inputs, pol: Policies, t: string)
    requires BestFirst(result.scores)
    ensures Deliverable(result, inp, pol, t) <==> result.strategy.PrefixMatch? && LongEnough(pol, t, inp) && HasGoodScore(result, pol, t)
  {
    hide GoodEnough, LongEnough, ClearsPrefixFloor, Passes, BestFirst, Survivors;
    BestSurvivorPasses(result, pol, t);
    LongEnoughClears(pol, t, inp);
    forall x ensures Passes(x, pol, t) <==> GoodEnough(pol, t, x) {
      GoodEnoughPasses(x, pol, t);
    }
  }

  lemma PickExactly(es: Entries, req: RouteRequest, inp: Inputs, pol: Policies)
    ensures AffinityApplies(es, req, inp, pol) <==> MayPick(es, req, inp, pol)
  {
    ServingHas(es, req.tenant, req.model, req.hashScheme);
    SeedExactly(inp);
    hide Serving, SeedOf;
  }

  lemma SeedExactly(inp: Inputs)
    ensures SeedOf(inp) != "" <==> inp.blockHashes != [] || inp.exactPrefixHash != ""
  {}

  /** So every delivery of every history, under the policies it is made with. */
  lemma EveryDeliveryFits(ms: seq<Moment>, turns: seq<Turn>, env: Env, n: nat)
    requires History(ms, turns, env) && n < |turns| && turns[n].Deliver? && Ready(ms[n], turns[n].ticket)
    ensures |ms[n + 1].answers| == |ms[n].answers| + 1 && ms[n + 1].answers[|ms[n].answers|].Replied?
    ensures var fl, pol := ms[n].pending[turns[n].ticket], turns[n].pol;
            && ReasonFits(ms[n + 1].answers[|ms[n].answers|].reply, ResultOf(ms[n], turns[n].ticket, pol), fl.req, fl.inp, pol, EntriesOf(ms[n].rep))
            && ResultOf(ms[n], turns[n].ticket, pol) ==
               (if fl.phase.result.strategy.TenantHot? && fl.req.tenant in pol.policies && pol.policies[fl.req.tenant].enableTenantHot == Some(false)
                then LookupResult([], NoStrategy, map[]) else fl.phase.result)
  {
    hide Next, WellKept, Coherent, BestFirst, Response.Delivered, Used, ReasonFits, EntriesOf;
    var fl, pol := ms[n].pending[turns[n].ticket], turns[n].pol;
    KeptThroughout(ms, turns, env, n);
    DeliveryIsSettled(ms[n], turns[n], ms[n + 1], env);
    ReplyExactly(ms[n + 1].answers[|ms[n].answers|].reply, ResultOf(ms[n], turns[n].ticket, pol), fl.req, fl.inp, pol,
                 EntriesOf(ms[n].rep), env.digest, |ms[n].rep.arena|);
  }

  // ---- Budgets and times to live ----

  /** After a report a tenant with a budget row is within it; the probe tenant, and
      tenants without a row, have none. */
  lemma BudgetsExactly(st: State, u: Update, now: int, pol: Policies, cfg: Config)
    ensures u.tenant != PROBE_TENANT && u.tenant in pol.tenants && pol.tenants[u.tenant].maxIndexEntries >= 0 ==>
              |TenantKeys(IngestF(st, u, now, pol, cfg).entries.Keys, u.tenant)| <= pol.tenants[u.tenant].maxIndexEntries
    ensures (u.tenant == PROBE_TENANT || u.tenant !in pol.tenants) && cfg.maxEntries <= 0 ==>
              forall h :: h in st.entries ==> h in IngestF(st, u, now, pol, cfg).entries
  {
    hide PutAll, Writes, TenantKeys, Unreserved, QuotaF;
    IngestWithinBounds(st, u, now, pol, cfg);
    var written := PutAll(st.entries, Writes(u), u.replica, TimeOf(u.timestamp, now));
    if cfg.maxEntries <= 0 {
      CapIdle(written, pol, cfg);
      forall h | h in st.entries ensures h in written {
        PutAllKeeps(st.entries, Writes(u), u.replica, TimeOf(u.timestamp, now), h);
      }
    }
  }

  /** What a sweep keeps: an entry or stats row stays while younger than its tenant's own
      time to live if it has a positive one, else than the global one. */
  lemma SweptExactly(st: State, now: int, pol: Policies, cfg: Config, h: Held, s: StatsKey)
    ensures h in SweepF(st, now, pol, cfg).entries <==> h in st.entries && StillLives(st.entries[h].lastSeen, now, pol, cfg, h.key.tenant)
    ensures s in SweepF(st, now, pol, cfg).stats <==> s in st.stats && StillLives(st.stats[s].lastSeen, now, pol, cfg, s.tenant)
    ensures h in SweepF(st, now, pol, cfg).entries ==> SweepF(st, now, pol, cfg).entries[h] == st.entries[h]
  {}

  predicate StillLives(lastSeen: int, now: int, pol: Policies, cfg: Config, tenant: string) {
    if tenant in pol.policies && pol.policies[tenant].evictionTTL > 0 then now - lastSeen < pol.policies[tenant].evictionTTL
    else cfg.ttl > 0 ==> now - lastSeen < cfg.ttl
  }

  // ---- Every served match is the request's own ----

  /** The replica itself last said that it holds the hash in the request's partition,
      recently enough, with this report. */
  ghost predicate Vouched(ops: seq<Op>, req: RouteRequest, hash: string, replica: string, now: int, ttl: int, r: Report) {
    && now - r.lastSeen < ttl
    && exists i: nat :: LastSaid(ops, Held(PrefixKey(req.tenant, req.model, req.hashScheme, req.adapter, hash), replica), i, r)
  }

  ghost predicate IsVouched(ops: seq<Op>, req: RouteRequest, hash: string, replica: string, now: int, ttl: int) {
    exists r :: Vouched(ops, req, hash, replica, now, ttl, r)
  }

  lemma FreshIsVouched(ops: seq<Op>, cfg: Config, req: RouteRequest, inp: Inputs, now: int, ttl: int, replica: string, hash: string)
    requires FreshAt(Query(Run(ops, cfg).entries, IndexRequest(req, inp), now, ttl), replica, hash)
    ensures var h := Held(PrefixKey(req.tenant, req.model, req.hashScheme, req.adapter, hash), replica);
            h in Run(ops, cfg).entries && Vouched(ops, req, hash, replica, now, ttl, ReportOf(Run(ops, cfg).entries[h]))
  {
    hide Run, LastSaid;
    var h := Held(PrefixKey(req.tenant, req.model, req.hashScheme, req.adapter, hash), replica);
    var i := StoredWasReported(ops, cfg, h);
  }

  /** What a match of a request claims about a replica is the replica's own word: for each
      block of its run, or for the exact prefix. */
  ghost predicate ClaimIsVouched(ops: seq<Op>, req: RouteRequest, inp: Inputs, now: int, ttl: int, x: ReplicaScore) {
    if inp.blockHashes != [] then
      exists n: nat ::
        && 0 < n <= |inp.blockHashes| == |inp.blockTokenCounts| && x.matched == RunningSum(inp.blockTokenCounts, n)
        && forall i: nat :: i < n ==> IsVouched(ops, req, inp.blockHashes[i], x.replica, now, ttl)
    else
      exists r :: Vouched(ops, req, inp.exactPrefixHash, x.replica, now, ttl, r) && r.tokens == x.matched
  }

  lemma MatchIsVouched(ops: seq<Op>, cfg: Config, req: RouteRequest, inp: Inputs, now: int, ttl: int, stats: map<StatsKey, StatEntry>,
                       x: ReplicaScore)
    requires var m := LookupF(Query(Run(ops, cfg).entries, IndexRequest(req, inp), now, ttl), stats, cfg.ranker);
             x.replica in m && m[x.replica] == x
    ensures ClaimIsVouched(ops, req, inp, now, ttl, x)
  {
    hide Run, Vouched, FreshAt, LookupF, RunningSum, FreshnessAt, RunTier, PlainSum, RunLen;
    var q := Query(Run(ops, cfg).entries, IndexRequest(req, inp), now, ttl);
    if q.req.hashScheme == "" || |q.req.blockHashes| != |q.req.blockTokenCounts| {
      MalformedMatchesNobody(q, stats, cfg.ranker);
    } else if inp.blockHashes != [] {
      var n := ChainMatchExactly(q, stats, cfg.ranker, x.replica);
      forall i: nat | i < n ensures IsVouched(ops, req, inp.blockHashes[i], x.replica, now, ttl) {
        FreshIsVouched(ops, cfg, req, inp, now, ttl, x.replica, inp.blockHashes[i]);
      }
    } else {
      ExactMatchExactly(q, stats, cfg.ranker, x.replica);
      FreshIsVouched(ops, cfg, req, inp, now, ttl, x.replica, inp.exactPrefixHash);
    }
  }

  /** So is every replica of every PREFIX_MATCH reply of every history, by what the
      history had said when it was found. */
  lemma ServedMatchIsVouched(ms: seq<Moment>, turns: seq<Turn>, env: Env, n: nat, x: ReplicaScore) returns (k: nat)
    requires History(ms, turns, env) && n < |turns| && turns[n].Deliver? && Ready(ms[n], turns[n].ticket)
    requires |ms[n + 1].answers| > |ms[n].answers| && ms[n + 1].answers[|ms[n].answers|].Replied?
    requires ms[n + 1].answers[|ms[n].answers|].reply.reason == PREFIX_MATCH && x in ms[n + 1].answers[|ms[n].answers|].reply.scores
    ensures FoundAt(ms, turns, env, turns[n].ticket, k, n)
    ensures var fl := ms[n].pending[turns[n].ticket];
            ClaimIsVouched(Ops(ms, turns, env, k), fl.req, fl.inp, turns[k].now, TtlFor(env.cfg, turns[k].pol, fl.req.tenant), x)
  {
    hide WellKept, LookStep, LookupF, Lists, StateOf, Response.Delivered, Run, OpAt, TtlFor, ClaimIsVouched, Next;
    var t := turns[n].ticket;
    k := ServedMatchWasFound(ms, turns, env, n, x);
    StoredIsRun(ms, turns, env, k);
    StateEntries(ms[k].rep);
    var fl := ms[n].pending[t];
    MatchIsVouched(Ops(ms, turns, env, k), env.cfg, fl.req, fl.inp, turns[k].now, TtlFor(env.cfg, turns[k].pol, fl.req.tenant), ms[k].rep.stats, x);
  }

  /** What a lookup under way looks up was resolved from its request. */
  lemma {:induction false} InputsAreResolved(ms: seq<Moment>, turns: seq<Turn>, env: Env, t: Ticket, n: nat) returns (enabled: bool)
    requires History(ms, turns, env) && n < |ms| && t in ms[n].pending
    ensures ResolveChain(ms[n].pending[t].req, enabled, env.chain) == Some(ms[n].pending[t].inp)
  {
    hide Next, WellKept, StateOf, ResolveChain;
    assert n > 0;
    if t in ms[n - 1].pending {
      enabled := InputsAreResolved(ms, turns, env, t, n - 1);
      InputsStay(ms[n - 1], turns[n - 1], ms[n], env, t);
    } else {
      NewInputs(ms[n - 1], turns[n - 1], ms[n], env, t);
      enabled := turns[n - 1].pol.ChainMatchingEnabled(ms[n].pending[t].req.tenant);
    }
  }

  lemma InputsStay(m: Moment, turn: Turn, m': Moment, env: Env, t: Ticket)
    requires Next(m, turn, m', env) && t in m.pending && t in m'.pending
    ensures m'.pending[t].req == m.pending[t].req && m'.pending[t].inp == m.pending[t].inp
  {
    hide Moves, StateOf, LookStep, Response.Delivered, Used, ResolveChain, ShortAnswer, Checked;
  }

  lemma NewInputs(m: Moment, turn: Turn, m': Moment, env: Env, t: Ticket)
    requires Next(m, turn, m', env) && t !in m.pending && t in m'.pending
    ensures turn.Arrive? && ResolveChain(m'.pending[t].req, turn.pol.ChainMatchingEnabled(m'.pending[t].req.tenant), env.chain) == Some(m'.pending[t].inp)
  {
    hide Moves, StateOf, LookStep, Response.Delivered, Used, ResolveChain, ShortAnswer, Checked;
  }
}
