/** The response pipeline (internal/server/inferencecache_service.go:185-632, 659-740,
    871-963; internal/index/types.go:308-343): from a ranked lookup result to
    the response that is delivered, through floors and downgrades, with
    frequency credit for exactly what is delivered.
 */
module Response {
  import opened Ordering
  import opened Tally
  import opened Domain
  import opened Policy
  import opened IndexModel
  import opened LookupModel
  import opened Ranking
  import opened Bookkeeping
  import opened CacheIndex
  import opened Lookup
  import opened Routing
  import opened Encoding

  datatype Reason =
    | PREFIX_MATCH | TENANT_HOT | AFFINITY_HINT | NO_HINT
    | UNKNOWN_TENANT | UNKNOWN_MODEL | UNKNOWN_HASH_SCHEME
    | TIMEOUT | POLICY_REQUIRES_CHAIN

  datatype Reply = Reply(reason: Reason, scores: seq<ReplicaScore>)

  /** The wire request; `prompt` is what the tokenizer made of the prompt text, if
      it was given, available and within its limits. */
  datatype RouteRequest = RouteRequest(tenant: string, model: string, hashScheme: string, adapter: string,
                                       blockHashes: seq<string>, blockTokenCounts: seq<int32>,
                                       prefixHash: string, prefixTokenCount: int32,
                                       tokenIds: seq<int>, prompt: Prompt, ttftMs: int)
  datatype Prompt = NoPrompt | Untokenized | Tokenized(tokens: seq<int>)

  /** The resolved chain or exact key the lookup runs on. */
  datatype Inputs = Inputs(blockHashes: seq<string>, blockTokenCounts: seq<int32>, exactPrefixHash: string,
                           exactTokenCount: int32)

  const MAX_LOOKUP_TOKENS := 0x10_0000

  // ---- Input resolution ----

  /** A fingerprint of tokens: parallel block hashes and counts. */
  type Fingerprint = seq<int> -> (seq<string>, seq<int32>)

  function FromTokens(tokens: seq<int>, enabled: bool, chain: Fingerprint): Option<Inputs> {
    var (hashes, counts) := chain(tokens);
    if |tokens| > MAX_LOOKUP_TOKENS || |hashes| == 0 then None
    else Some(Inputs(if enabled then hashes else [], if enabled then counts else [],
                     hashes[|hashes| - 1], RunningSum(counts, |counts|)))
  }

  /** `resolveLookupChain`: an explicit chain or prefix hash wins over token ids,
      which win over the prompt; `None` fails open. */
  function ResolveChain(req: RouteRequest, enabled: bool, chain: Fingerprint): Option<Inputs> {
    if !enabled && req.prefixHash != "" then
      Some(Inputs([], [], req.prefixHash, req.prefixTokenCount))
    else
      var ignored := !enabled && (|req.blockHashes| > 0 || |req.blockTokenCounts| > 0);
      var hashes := if ignored then [] else req.blockHashes;
      var counts := if ignored then [] else req.blockTokenCounts;
      if |hashes| > 0 || |counts| > 0 || req.prefixHash != "" then
        if |hashes| != |counts| then None else Some(Inputs(hashes, counts, req.prefixHash, req.prefixTokenCount))
      else if |req.tokenIds| > 0 then FromTokens(req.tokenIds, enabled, chain)
      else match req.prompt
        case Tokenized(tokens) => if tokens == [] then None else FromTokens(tokens, enabled, chain)
        case Untokenized => None
        case NoPrompt => if ignored then None else Some(Inputs([], [], req.prefixHash, req.prefixTokenCount))
  }

  /** The token count the minimum-prefix floor is held against. */
  function EffectivePrefixTokens(inp: Inputs): int32 {
    if |inp.blockTokenCounts| > 0 then RunningSum(inp.blockTokenCounts, |inp.blockTokenCounts|) else inp.exactTokenCount
  }

  // ---- Results ----

  /** What every lookup result satisfies: replicas are listed once, only listed
      replicas carry hits, only prefix matches carry hits, and there are scores
      exactly when there is a match to report. */
  ghost predicate Coherent(result: LookupResult, size: nat) {
    && (forall i, j :: 0 <= i < j < |result.scores| ==> result.scores[i].replica != result.scores[j].replica)
    && result.hits.Keys <= Ids(result.scores)
    && (!result.strategy.PrefixMatch? ==> result.hits == map[])
    && (|result.scores| > 0 <==> result.strategy.PrefixMatch? || result.strategy.TenantHot?)
    && (forall r :: r in result.hits ==> forall i :: 0 <= i < |result.hits[r]| ==> result.hits[r][i] < size)
  }

  /** The scores that clear the matched-tokens floor, in order. */
  function Kept(scores: seq<ReplicaScore>, floor: int): seq<ReplicaScore> {
    if scores == [] then []
    else
      var last := scores[|scores| - 1];
      Kept(scores[..|scores| - 1], floor) + if last.matched >= floor then [last] else []
  }

  /** `Kept` is the sub-list of exactly the clearing scores. */
  lemma {:induction false} KeptExact(scores: seq<ReplicaScore>, floor: int, x: ReplicaScore)
    ensures x in Kept(scores, floor) <==> x in scores && x.matched >= floor
    ensures |Kept(scores, floor)| <= |scores|
    ensures |Kept(scores, floor)| == |scores| <==> Kept(scores, floor) == scores
  {
    if scores != [] {
      var init := scores[..|scores| - 1];
      KeptExact(init, floor, x);
      assert scores == init + [scores[|scores| - 1]];
    }
  }

  /** Filtering keeps the ranking. */
  lemma {:induction false} KeptRanked(scores: seq<ReplicaScore>, floor: int)
    requires BestFirst(scores)
    ensures BestFirst(Kept(scores, floor))
  {
    hide ByteBefore;
    if scores != [] {
      var init, last := scores[..|scores| - 1], scores[|scores| - 1];
      KeptRanked(init, floor);
      forall i | 0 <= i < |Kept(init, floor)|
        ensures Kept(init, floor)[i].score >= last.score
        ensures Kept(init, floor)[i].score == last.score ==> ByteBefore(Kept(init, floor)[i].replica, last.replica)
      {
        KeptExact(init, floor, Kept(init, floor)[i]);
        var j :| 0 <= j < |init| && init[j] == Kept(init, floor)[i];
        assert scores[j] == init[j] && last == scores[|scores| - 1];
      }
    }
  }

  // ---- Floors ----

  ghost predicate ClearsPrefixFloor(inp: Inputs, pol: Policies, tenant: string) {
    pol.MinimumPrefixTokens(tenant) > 0 ==> EffectivePrefixTokens(inp) >= pol.MinimumPrefixTokens(tenant)
  }

  /** What is left of a prefix match after the matched-tokens floor. */
  function Survivors(result: LookupResult, pol: Policies, tenant: string): seq<ReplicaScore> {
    if pol.MinimumMatchedTokens(tenant) <= 0 then result.scores else Kept(result.scores, pol.MinimumMatchedTokens(tenant))
  }

  /** A prefix match is delivered exactly when all three floors hold. */
  ghost predicate Deliverable(result: LookupResult, inp: Inputs, pol: Policies, tenant: string) {
    && result.strategy.PrefixMatch?
    && ClearsPrefixFloor(inp, pol, tenant)
    && |Survivors(result, pol, tenant)| > 0
    && (pol.RoutingFloorScore(tenant) > 0.0 ==> Survivors(result, pol, tenant)[0].score >= pol.RoutingFloorScore(tenant))
  }

  function Restrict(hits: Hits, keep: set<string>): Hits {
    map r | r in hits && r in keep :: hits[r]
  }

  /** The scores of the replicas in `keep`, in order. */
  function KeptBy(scores: seq<ReplicaScore>, keep: set<string>): seq<ReplicaScore> {
    if scores == [] then []
    else
      var last := scores[|scores| - 1];
      KeptBy(scores[..|scores| - 1], keep) + if last.replica in keep then [last] else []
  }

  /** Keeping by id is keeping by depth when the ids were chosen by depth. */
  lemma {:induction false} KeptByDepth(scores: seq<ReplicaScore>, keep: set<string>, floor: int)
    requires forall i :: 0 <= i < |scores| ==> (scores[i].replica in keep <==> scores[i].matched >= floor)
    ensures KeptBy(scores, keep) == Kept(scores, floor)
  {
    if scores != [] {
      KeptByDepth(scores[..|scores| - 1], keep, floor);
    }
  }

  /** `RetainReplicas`: scores and hits are pruned in lockstep, to any set of ids. */
  method RetainReplicas(result: LookupResult, keep: set<string>) returns (out: LookupResult)
    ensures out.scores == KeptBy(result.scores, keep) && out.strategy == result.strategy
    ensures out.hits == if result.scores == [] then result.hits else Restrict(result.hits, keep)
  {
    if |result.scores| == 0 {
      return result;
    }
    var kept: seq<ReplicaScore> := [];
    for i := 0 to |result.scores|
      invariant kept == KeptBy(result.scores[..i], keep)
    {
      assert result.scores[..i + 1][..i] == result.scores[..i];
      if result.scores[i].replica in keep {
        kept := kept + [result.scores[i]];
      }
    }
    assert result.scores[..|result.scores|] == result.scores;
    return LookupResult(kept, result.strategy, Restrict(result.hits, keep));
  }

  /** `applyMatchedTokensFloor` */
  method ApplyMatchedTokensFloor(result: LookupResult, pol: Policies, tenant: string,
                              ghost size: nat) returns (out: LookupResult)
    requires Coherent(result, size) && result.strategy.PrefixMatch?
    ensures |Survivors(result, pol, tenant)| == 0 ==> out == NO_MATCH
    ensures |Survivors(result, pol, tenant)| > 0 ==>
              out == LookupResult(Survivors(result, pol, tenant), PrefixMatch, Restrict(result.hits, Ids(Survivors(result, pol, tenant))))
  {
    var floor, scores := pol.MinimumMatchedTokens(tenant), result.scores;
    if floor <= 0 || |scores| == 0 {
      assert Restrict(result.hits, Ids(scores)) == result.hits;
      return result;
    }
    var keep: set<string> := {};
    var survivors := 0;
    for i := 0 to |scores|
      invariant forall j :: 0 <= j < |scores| ==> (scores[j].replica in keep <==> j < i && scores[j].matched >= floor)
      invariant keep <= Ids(scores) && survivors == |Kept(scores[..i], floor)|
    {
      assert scores[..i + 1][..i] == scores[..i];
      if scores[i].matched >= floor {
        keep := keep + {scores[i].replica};
        survivors := survivors + 1;
      }
    }
    assert scores[..|scores|] == scores;
    KeptExact(scores, floor, scores[0]);
    assert Ids(Kept(scores, floor)) == keep by { KeptIds(scores, floor, keep); }
    if survivors == |scores| {
      assert Restrict(result.hits, Ids(scores)) == result.hits;
      return result;
    }
    if survivors == 0 {
      return NO_MATCH;
    }
    KeptByDepth(scores, keep, floor);
    out := RetainReplicas(result, keep);
  }

  lemma KeptIds(scores: seq<ReplicaScore>, floor: int, keep: set<string>)
    requires forall j :: 0 <= j < |scores| ==> (scores[j].replica in keep <==> scores[j].matched >= floor)
    requires keep <= Ids(scores)
    ensures Ids(Kept(scores, floor)) == keep
  {
    var kept := Kept(scores, floor);
    forall r | r in keep ensures r in Ids(kept) {
      var j :| 0 <= j < |scores| && scores[j].replica == r;
      KeptExact(scores, floor, scores[j]);
      var i :| 0 <= i < |kept| && kept[i] == scores[j];
    }
    forall r | r in Ids(kept) ensures r in keep {
      var i :| 0 <= i < |kept| && kept[i].replica == r;
      KeptExact(scores, floor, kept[i]);
    }
  }

  /** The three downgrades in order. */
  method ApplyFloors(result: LookupResult, inp: Inputs, pol: Policies, tenant: string,
                     ghost size: nat) returns (out: LookupResult)
    requires Coherent(result, size)
    ensures Deliverable(result, inp, pol, tenant) ==>
              out == LookupResult(Survivors(result, pol, tenant), PrefixMatch, Restrict(result.hits, Ids(Survivors(result, pol, tenant))))
    ensures result.strategy.PrefixMatch? && !Deliverable(result, inp, pol, tenant) ==> out == NO_MATCH
    ensures result.strategy.TenantHot? ==> out == if ClearsPrefixFloor(inp, pol, tenant) then result else NO_MATCH
    ensures !result.strategy.PrefixMatch? && !result.strategy.TenantHot? ==> out == result
  {
    hide Restrict, Kept, Ids;
    out := result;
    var minTokens := pol.MinimumPrefixTokens(tenant);
    if minTokens > 0 && EffectivePrefixTokens(inp) < minTokens {
      if out.strategy.PrefixMatch? || out.strategy.TenantHot? {
        out := NO_MATCH;
      }
    }
    if out.strategy.PrefixMatch? {
      out := ApplyMatchedTokensFloor(out, pol, tenant, size);
    }
    if out.strategy.PrefixMatch? {
      var floor := pol.RoutingFloorScore(tenant);
      if floor > 0.0 && |out.scores| > 0 {
        if out.scores[0].score < floor {
          out := NO_MATCH;
        }
      }
    }
  }

  // ---- Credit ----

  ghost function Marks(hits: Hits, ids: set<string>, p: Pointer): map<string, int> {
    map r | r in hits && r in ids :: multiset(hits[r])[p]
  }

  /** How often entry `p` occurs in the hits of the replicas in `ids`. */
  ghost function Uses(hits: Hits, ids: set<string>, p: Pointer): int {
    Total(Marks(hits, ids, p))
  }

  lemma UsesNone(hits: Hits, p: Pointer)
    ensures Uses(hits, {}, p) == 0
  {
    assert Marks(hits, {}, p) == map[];
  }

  lemma UsesAdd(hits: Hits, ids: set<string>, id: string, p: Pointer)
    requires id in hits && id !in ids
    ensures Uses(hits, ids + {id}, p) == Uses(hits, ids, p) + multiset(hits[id])[p]
  {
    TotalSplit(Marks(hits, ids + {id}, p), id);
    assert Marks(hits, ids + {id}, p) - {id} == Marks(hits, ids, p);
  }

  /** Only listed replicas' hits are left after a restriction. */
  lemma UsesRestricted(hits: Hits, ids: set<string>, p: Pointer)
    ensures Uses(Restrict(hits, ids), Restrict(hits, ids).Keys, p) == Uses(hits, ids, p)
  {
    assert Marks(Restrict(hits, ids), Restrict(hits, ids).Keys, p) == Marks(hits, ids, p);
  }

  /** `CreditHits`: one use per entry of every replica's hits. */
  method CreditAll(ix: Index, hits: Hits)
    requires ix.Valid()
    requires forall r :: r in hits ==> forall i :: 0 <= i < |hits[r]| ==> hits[r][i] < |ix.arena|
    modifies ix`arena, ix`ledger
    ensures ix.Valid() && OnlyCounters(old(ix.arena), ix.arena)
    ensures forall p :: ix.ledger[p] == old(ix.ledger)[p] + Uses(hits, hits.Keys, p)
  {
    hide Sound, Uses;
    var ids := hits.Keys;
    ghost var done: set<string> := {};
    forall p ensures Uses(hits, done, p) == 0 {
      UsesNone(hits, p);
    }
    while ids != {}
      invariant ids <= hits.Keys && done == hits.Keys - ids && ix.Valid() && |ix.arena| == |old(ix.arena)|
      invariant forall p :: ix.ledger[p] == old(ix.ledger)[p] + Uses(hits, done, p)
      invariant OnlyCounters(old(ix.arena), ix.arena)
      decreases ids
    {
      var id :| id in ids;
      ids := ids - {id};
      ix.CreditHits(hits[id]);
      forall p ensures Uses(hits, done + {id}, p) == Uses(hits, done, p) + multiset(hits[id])[p] {
        UsesAdd(hits, done, id, p);
      }
      done := done + {id};
    }
    assert done == hits.Keys;
  }

  // ---- The response ----

  function ReasonFor(s: Strategy): Reason {
    match s
    case PrefixMatch => PREFIX_MATCH
    case TenantHot => TENANT_HOT
    case UnknownTenant => UNKNOWN_TENANT
    case UnknownModel => UNKNOWN_MODEL
    case UnknownHashScheme => UNKNOWN_HASH_SCHEME
    case NoStrategy => NO_HINT
  }

  predicate AffinityEligible(req: RouteRequest) {
    && req.tenant != "" && req.model != "" && req.hashScheme != ""
    && (|req.blockHashes| > 0 || |req.blockTokenCounts| > 0 ==> |req.blockHashes| == |req.blockTokenCounts|)
  }

  ghost function SeedOf(inp: Inputs): string {
    if inp.blockHashes != [] then Frames(inp.blockHashes) else inp.exactPrefixHash
  }

  /** Affinity has something to pick from and something to pick by. */
  ghost predicate AffinityApplies(es: Entries, req: RouteRequest, inp: Inputs, pol: Policies) {
    && pol.AffinityRoutingEnabled(req.tenant) && AffinityEligible(req) && SeedOf(inp) != ""
    && Serving(es.Keys, ScopeKey(req.tenant, req.model, req.hashScheme)) != {}
  }

  /** A bare assignment to the serving replica the seed picks. */
  ghost predicate IsAffinity(reply: Reply, es: Entries, req: RouteRequest, inp: Inputs, digest: string -> nat) {
    && reply.reason == AFFINITY_HINT && |reply.scores| == 1
    && var sc := reply.scores[0];
       && sc == ReplicaScore(sc.replica, 0.0, 0, 0.0, TIER_UNSPECIFIED)
       && IsPick(Serving(es.Keys, ScopeKey(req.tenant, req.model, req.hashScheme)), digest(SeedOf(inp)), sc.replica)
  }

  /** `tryAffinityResponse` */
  method TryAffinity(ix: Index, req: RouteRequest, inp: Inputs, pol: Policies,
                     digest: string -> nat) returns (r: Option<Reply>)
    requires ix.Valid()
    ensures r.Some? <==> AffinityApplies(ix.Stored(), req, inp, pol)
    ensures r.Some? ==> IsAffinity(r.value, ix.Stored(), req, inp, digest)
  {
    hide Sound, EntriesOf, Serving, IsPick, Frames;
    if !pol.AffinityRoutingEnabled(req.tenant) {
      return None;
    }
    if !AffinityEligible(req) {
      return None;
    }
    var seed := CanonicalAffinitySeed(inp.blockHashes, inp.exactPrefixHash);
    if |seed| == 0 {
      return None;
    }
    var rid, ok := AffinityHint(ix, req.tenant, req.model, req.hashScheme, seed, digest);
    if !ok {
      return None;
    }
    return Some(Reply(AFFINITY_HINT, [ReplicaScore(rid, 0.0, 0, 0.0, TIER_UNSPECIFIED)]));
  }

  ghost predicate HotDeliverable(result: LookupResult, inp: Inputs, pol: Policies, tenant: string) {
    result.strategy.TenantHot? && ClearsPrefixFloor(inp, pol, tenant)
  }

  predicate IsDiagnosis(s: Strategy) {
    s.UnknownTenant? || s.UnknownModel? || s.UnknownHashScheme?
  }

  /** What is delivered for a result: decided by the floors, and failing those by
      the entries `es` stored at that moment. */
  ghost predicate Delivered(reply: Reply, result: LookupResult, req: RouteRequest, inp: Inputs, pol: Policies, es: Entries,
                            digest: string -> nat) {
    if Deliverable(result, inp, pol, req.tenant) then reply == Reply(PREFIX_MATCH, Survivors(result, pol, req.tenant))
    else if HotDeliverable(result, inp, pol, req.tenant) then reply == Reply(TENANT_HOT, result.scores)
    else if IsDiagnosis(result.strategy) then reply == Reply(ReasonFor(result.strategy), [])
    else if AffinityApplies(es, req, inp, pol) then IsAffinity(reply, es, req, inp, digest)
    else reply == Reply(NO_HINT, [])
  }

  lemma CreditedHits(result: LookupResult, inp: Inputs, pol: Policies, tenant: string, out: LookupResult, size: nat)
    requires Coherent(result, size)
    requires out == (if Deliverable(result, inp, pol, tenant) then
                       LookupResult(Survivors(result, pol, tenant), PrefixMatch, Restrict(result.hits, Ids(Survivors(result, pol, tenant))))
                     else if result.strategy.PrefixMatch? then NO_MATCH
                     else if result.strategy.TenantHot? && !ClearsPrefixFloor(inp, pol, tenant) then NO_MATCH
                     else result)
    ensures forall r :: r in out.hits ==> forall i :: 0 <= i < |out.hits[r]| ==> out.hits[r][i] < size
    ensures forall p :: Uses(out.hits, out.hits.Keys, p) == if out.strategy.PrefixMatch? then Uses(result.hits, Ids(out.scores), p) else 0
    ensures out.strategy.PrefixMatch? <==> Deliverable(result, inp, pol, tenant)
  {
    hide Uses, Ids, Survivors, ClearsPrefixFloor;
    forall p ensures Uses(out.hits, out.hits.Keys, p) == if out.strategy.PrefixMatch? then Uses(result.hits, Ids(out.scores), p) else 0 {
      UsesNone(out.hits, p);
      UsesRestricted(result.hits, Ids(out.scores), p);
      assert out.hits == map[] ==> out.hits.Keys == {};
    }
  }

  /** The decision of `buildLookupResponse`: the reply, and the hits to credit. A
      prefix match is delivered iff all floors hold, and then as exactly the
      survivors; only their entries are to be credited. */
  method DecideResponse(ix: Index, req: RouteRequest, inp: Inputs, result: LookupResult, pol: Policies, digest: string -> nat)
      returns (reply: Reply, hits: Hits)
    requires ix.Valid() && Coherent(result, |ix.arena|)
    ensures Delivered(reply, result, req, inp, pol, ix.Stored(), digest)
    ensures forall r :: r in hits ==> forall i :: 0 <= i < |hits[r]| ==> hits[r][i] < |ix.arena|
    ensures forall p :: Uses(hits, hits.Keys, p) == if reply.reason == PREFIX_MATCH then Uses(result.hits, Ids(reply.scores), p) else 0
  {
    hide Sound, EntriesOf, Serving, Uses, AffinityApplies, IsPick, Restrict, Ids, ClearsPrefixFloor, Survivors, Frames;
    var out := ApplyFloors(result, inp, pol, req.tenant, |ix.arena|);
    CreditedHits(result, inp, pol, req.tenant, out, |ix.arena|);
    if out.strategy.NoStrategy? {
      var affinity := TryAffinity(ix, req, inp, pol, digest);
      if affinity.Some? {
        forall p ensures Uses(map[], {}, p) == 0 {
          UsesNone(map[], p);
        }
        return affinity.value, map[];
      }
    }
    return Reply(ReasonFor(out.strategy), out.scores), out.hits;
  }

  /** `buildLookupResponse` with its credits given at once. */
  method BuildLookupResponse(ix: Index, req: RouteRequest, inp: Inputs, result: LookupResult, pol: Policies,
                             digest: string -> nat)
      returns (reply: Reply)
    requires ix.Valid() && Coherent(result, |ix.arena|)
    modifies ix`arena, ix`ledger
    ensures ix.Valid() && OnlyCounters(old(ix.arena), ix.arena)
    ensures Delivered(reply, result, req, inp, pol, old(ix.Stored()), digest)
    ensures forall p :: ix.ledger[p] == old(ix.ledger)[p] +
              if reply.reason == PREFIX_MATCH then Uses(result.hits, Ids(reply.scores), p) else 0
  {
    hide Sound, EntriesOf, Delivered, Uses, Ids, OnlyCounters, Coherent;
    var hits;
    reply, hits := DecideResponse(ix, req, inp, result, pol, digest);
    CreditAll(ix, hits);
  }

  // ---- What a delivered response means ----

  /** A score that clears both the matched-tokens and the routing floor. */
  predicate Passes(x: ReplicaScore, pol: Policies, tenant: string) {
    && (pol.MinimumMatchedTokens(tenant) > 0 ==> x.matched >= pol.MinimumMatchedTokens(tenant))
    && (pol.RoutingFloorScore(tenant) > 0.0 ==> x.score >= pol.RoutingFloorScore(tenant))
  }

  /** The floor is held against the best survivor: the first one passes iff any does. */
  lemma BestSurvivorPasses(result: LookupResult, pol: Policies, tenant: string)
    requires BestFirst(result.scores)
    ensures var left := Survivors(result, pol, tenant);
            |left| > 0 && (pol.RoutingFloorScore(tenant) > 0.0 ==> left[0].score >= pol.RoutingFloorScore(tenant)) <==>
            exists x :: x in result.scores && Passes(x, pol, tenant)
  {
    hide ByteBefore, Kept;
    var left, floor := Survivors(result, pol, tenant), pol.MinimumMatchedTokens(tenant);
    forall x ensures x in left <==> x in result.scores && (floor > 0 ==> x.matched >= floor) {
      KeptExact(result.scores, floor, x);
    }
    if floor > 0 {
      KeptRanked(result.scores, floor);
    }
    if |left| > 0 {
      assert left[0] in left;
    }
    if x :| x in result.scores && Passes(x, pol, tenant) {
      var i :| 0 <= i < |left| && left[i] == x;
    }
  }

  /** PREFIX_MATCH carries all three floors; scores are present iff there is a
      hint; a diagnosis is never rewritten and never made up. */
  lemma DeliveredContract(reply: Reply, result: LookupResult, req: RouteRequest, inp: Inputs, pol: Policies, es: Entries,
                          digest: string -> nat, size: nat)
    requires Coherent(result, size) && BestFirst(result.scores)
    requires Delivered(reply, result, req, inp, pol, es, digest)
    ensures reply.scores != [] <==> reply.reason in {PREFIX_MATCH, TENANT_HOT, AFFINITY_HINT}
    ensures IsDiagnosis(result.strategy) ==> reply.reason == ReasonFor(result.strategy)
    ensures reply.reason in {UNKNOWN_TENANT, UNKNOWN_MODEL, UNKNOWN_HASH_SCHEME} ==> reply.reason == ReasonFor(result.strategy)
    ensures reply.reason == PREFIX_MATCH ==>
              && ClearsPrefixFloor(inp, pol, req.tenant)
              && (forall i :: 0 <= i < |reply.scores| ==> reply.scores[i] in result.scores)
              && (pol.MinimumMatchedTokens(req.tenant) > 0 ==>
                    forall i :: 0 <= i < |reply.scores| ==> reply.scores[i].matched >= pol.MinimumMatchedTokens(req.tenant))
              && (pol.RoutingFloorScore(req.tenant) > 0.0 ==>
                    exists i :: 0 <= i < |reply.scores| && reply.scores[i].score >= pol.RoutingFloorScore(req.tenant))
    ensures BestFirst(reply.scores)
  {
    hide Serving, Frames, ByteBefore, IsPick, ClearsPrefixFloor, AffinityApplies;
    if reply.reason == PREFIX_MATCH {
      var floor := pol.MinimumMatchedTokens(req.tenant);
      if floor > 0 {
        KeptRanked(result.scores, floor);
        forall i | 0 <= i < |reply.scores| ensures reply.scores[i] in result.scores && reply.scores[i].matched >= floor {
          KeptExact(result.scores, floor, reply.scores[i]);
        }
      }
    }
  }

  /** A prefix match is delivered iff the request clears its floor and some replica
      passes both others, so iff the best survivor does. */
  lemma MatchIffAnyPasses(reply: Reply, result: LookupResult, req: RouteRequest, inp: Inputs, pol: Policies, es: Entries,
                          digest: string -> nat)
    requires result.strategy.PrefixMatch? && BestFirst(result.scores) && Delivered(reply, result, req, inp, pol, es, digest)
    ensures reply.reason == PREFIX_MATCH <==>
            ClearsPrefixFloor(inp, pol, req.tenant) && exists x :: x in result.scores && Passes(x, pol, req.tenant)
  {
    hide Serving, IsPick, ClearsPrefixFloor, AffinityApplies, BestFirst, Survivors, Passes;
    BestSurvivorPasses(result, pol, req.tenant);
  }

  // ---- The handler ----

  /** Every hit of a lookup is the entry of one of the delivered holds. */
  lemma HitsAllocated(r: Rep, reserved: set<string>, q: Query, lfu: bool)
    requires Sound(r, reserved) && q.es == EntriesOf(r)
    ensures forall id :: id in HitsF(q, r.objs, lfu) ==>
              forall i :: 0 <= i < |HitsF(q, r.objs, lfu)[id]| ==> HitsF(q, r.objs, lfu)[id][i] < |r.arena|
  {
    hide Sound, EntriesOf, RunPointers, ServingSet;
    var hits := HitsF(q, r.objs, lfu);
    forall id, i | id in hits && 0 <= i < |hits[id]| ensures hits[id][i] < |r.arena| {
      if ChainBearing(q.req) {
        ChainHitAllocated(r, reserved, q, lfu, id, i);
      } else {
        SoundHas(r, reserved, ExactHeld(q.req, id));
        SoundAt(r, reserved, KeyFor(q.req, q.req.prefixHash), id);
      }
    }
  }

  lemma ChainHitAllocated(r: Rep, reserved: set<string>, q: Query, lfu: bool, id: string, i: nat)
    requires Sound(r, reserved) && q.es == EntriesOf(r) && |q.req.blockHashes| == |q.req.blockTokenCounts|
    requires id in ChainHits(q, r.objs, lfu) && i < |ChainHits(q, r.objs, lfu)[id]|
    ensures ChainHits(q, r.objs, lfu)[id][i] < |r.arena|
  {
    hide Sound, EntriesOf, ServingSet;
    RunLenCharacterized(q, id, RunLen(q, id));
    assert Holds(q, id, i);
    SoundHas(r, reserved, Block(q.req, i, id));
    SoundAt(r, reserved, KeyFor(q.req, q.req.blockHashes[i]), id);
  }

  lemma HitsAreListed(q: Query, stats: map<StatsKey, StatEntry>, ranker: RankerConfig, objs: map<Held, Pointer>,
                      lfu: bool)
    ensures HitsF(q, objs, lfu).Keys <= LookupF(q, stats, ranker).Keys
  {
    hide ServingSet, RunPointers, RunLen, ChainScoreOf, ExactScoreOf, DistinguishingPower, AtLeastAsDeep;
  }

  /** What `LookupRoute` returns is coherent. */
  lemma RouteCoherent(r: Rep, reserved: set<string>, q: Query, ranker: RankerConfig, lfu: bool, res: LookupResult)
    requires Sound(r, reserved) && q.es == EntriesOf(r)
    requires res.strategy == RouteStrategy(q, r.stats, ranker)
    requires Lists(res.scores, RouteScores(q, r.stats, ranker))
    requires res.hits == RouteHits(q, r.stats, ranker, r.objs, lfu)
    ensures Coherent(res, |r.arena|)
  {
    hide Sound, EntriesOf, LookupF, HotF, HitsF, MissF;
    HitsAllocated(r, reserved, q, lfu);
    HitsAreListed(q, r.stats, ranker, r.objs, lfu);
    ListsEmpty(res.scores, RouteScores(q, r.stats, ranker));
    MissIsNoMatch(q.es, q.req);
  }

  /** The index request made from a resolved one. */
  function IndexRequest(req: RouteRequest, inp: Inputs): LookupRequest {
    LookupRequest(req.model, req.tenant, req.hashScheme, req.adapter, inp.exactPrefixHash, inp.blockHashes,
                  inp.blockTokenCounts, req.ttftMs)
  }

  /** `applyLookupStrategyGates` */
  function GateHot(result: LookupResult, pol: Policies, tenant: string): LookupResult {
    if result.strategy.TenantHot? && !pol.TenantHotEnabled(tenant) then NO_MATCH else result
  }

  /** The result of the lookup after the tenant-hot switch. */
  ghost predicate Gated(result: LookupResult, q: Query, stats: map<StatsKey, StatEntry>, ranker: RankerConfig,
                        objs: map<Held, Pointer>, pol: Policies) {
    if RouteStrategy(q, stats, ranker).TenantHot? && !pol.TenantHotEnabled(q.req.tenant) then result == NO_MATCH
    else
      && result.strategy == RouteStrategy(q, stats, ranker)
      && Lists(result.scores, RouteScores(q, stats, ranker)) && BestFirst(result.scores)
      && result.hits == RouteHits(q, stats, ranker, objs, pol.IsLFU(q.req.tenant))
  }

  method LookupGated(ix: Index, req: LookupRequest, now: int, pol: Policies) returns (result: LookupResult)
    requires ix.Valid()
    ensures Gated(result, QueryOf(ix, req, now, pol), ix.stats, ix.cfg.ranker, ix.objs, pol)
    ensures Coherent(result, |ix.arena|) && BestFirst(result.scores)
  {
    hide Sound, StoredIn, Lists, ByteBefore, RouteScores, RouteStrategy, RouteHits, TtlFor;
    result := LookupRoute(ix, req, now, pol);
    RouteCoherent(ix.Now(), ix.cfg.reserved, QueryOf(ix, req, now, pol), ix.cfg.ranker, pol.IsLFU(req.tenant), result);
    result := GateHot(result, pol, req.tenant);
  }

  predicate CarriesChain(req: RouteRequest) {
    |req.blockHashes| > 0 && |req.blockHashes| == |req.blockTokenCounts|
  }

  /** When the request's deadline passes, if it does. */
  datatype Deadline = Never | AtStart | WhileResolving | WhileLooking

  /** The answer given without using a lookup, if any. */
  ghost function ShortAnswer(req: RouteRequest, pol: Policies, chain: Fingerprint, deadline: Deadline): Option<Reason> {
    var inp := ResolveChain(req, pol.ChainMatchingEnabled(req.tenant), chain);
    if req.tenant == PROBE_TENANT then Some(NO_HINT)
    else if deadline.AtStart? then Some(TIMEOUT)
    else if pol.ChainRequired(req.tenant) && !CarriesChain(req) then Some(POLICY_REQUIRES_CHAIN)
    else if deadline.WhileResolving? then Some(TIMEOUT)
    else if inp.None? then Some(NO_HINT)
    else if !ClearsPrefixFloor(inp.value, pol, req.tenant) && !pol.AffinityRoutingEnabled(req.tenant) then Some(NO_HINT)
    else if deadline.WhileLooking? then Some(TIMEOUT)
    else None
  }

  /** No short answer carries a hint, and only a passed deadline is a timeout. */
  lemma ShortAnswerIsEmpty(req: RouteRequest, pol: Policies, chain: Fingerprint, deadline: Deadline)
    ensures var r := ShortAnswer(req, pol, chain, deadline);
            && (r.Some? ==> r.value in {NO_HINT, TIMEOUT, POLICY_REQUIRES_CHAIN})
            && (r == Some(TIMEOUT) ==> !deadline.Never?)
            && (!deadline.Never? || req.tenant == PROBE_TENANT ==> r.Some?)
  {}

  /** The handler up to the lookup: an answer without one, or the inputs to look up. */
  method Admit(req: RouteRequest, pol: Policies, chain: Fingerprint, deadline: Deadline) returns (short: Option<Reason>, inp: Inputs)
    ensures short == ShortAnswer(req, pol, chain, deadline)
    ensures short.None? ==> ResolveChain(req, pol.ChainMatchingEnabled(req.tenant), chain) == Some(inp)
  {
    hide ResolveChain;
    inp := Inputs([], [], "", 0);
    if req.tenant == PROBE_TENANT {
      return Some(NO_HINT), inp;
    }
    if deadline.AtStart? {
      return Some(TIMEOUT), inp;
    }
    if pol.ChainRequired(req.tenant) && !CarriesChain(req) {
      return Some(POLICY_REQUIRES_CHAIN), inp;
    }
    var resolved := ResolveChain(req, pol.ChainMatchingEnabled(req.tenant), chain);
    if deadline.WhileResolving? {
      return Some(TIMEOUT), inp;
    }
    if resolved.None? {
      return Some(NO_HINT), inp;
    }
    inp := resolved.value;
    var minTokens := pol.MinimumPrefixTokens(req.tenant);
    if minTokens > 0 && EffectivePrefixTokens(inp) < minTokens && !pol.AffinityRoutingEnabled(req.tenant) {
      return Some(NO_HINT), inp;
    }
    return if deadline.WhileLooking? then Some(TIMEOUT) else None, inp;
  }

  /** The `LookupRoute` handler when nothing intervenes. Whenever the deadline passes the answer is empty,
      and a result that arrives too late is not credited. */
  method HandleLookup(ix: Index, req: RouteRequest, now: int, pol: Policies, chain: Fingerprint, digest: string -> nat,
                      deadline: Deadline)
      returns (reply: Reply, ghost result: Option<LookupResult>)
    requires ix.Valid()
    modifies ix`arena, ix`ledger
    ensures ix.Valid() && OnlyCounters(old(ix.arena), ix.arena)
    ensures result.None? <==> ShortAnswer(req, pol, chain, deadline).Some?
    ensures result.None? ==> reply == Reply(ShortAnswer(req, pol, chain, deadline).value, []) && ix.ledger == old(ix.ledger)
    ensures result.Some? ==>
              var inp := ResolveChain(req, pol.ChainMatchingEnabled(req.tenant), chain);
              && inp.Some?
              && Gated(result.value, old(QueryOf(ix, IndexRequest(req, inp.value), now, pol)), ix.stats, ix.cfg.ranker, ix.objs, pol)
              && Coherent(result.value, |old(ix.arena)|) && BestFirst(result.value.scores)
              && Delivered(reply, result.value, req, inp.value, pol, old(ix.Stored()), digest)
              && forall p :: ix.ledger[p] == old(ix.ledger)[p] +
                   if reply.reason == PREFIX_MATCH then Uses(result.value.hits, Ids(reply.scores), p) else 0
  {
    hide Sound, StoredIn, Lists, ByteBefore, Gated, Coherent, Delivered, Uses, Ids, TtlFor, ShortAnswer, ResolveChain, OnlyCounters;
    assert OnlyCounters(ix.arena, ix.arena) by { OnlyCountersRefl(ix.arena); }
    var short, inp := Admit(req, pol, chain, deadline);
    if short.Some? {
      return Reply(short.value, []), None;
    }
    var found := LookupGated(ix, IndexRequest(req, inp), now, pol);
    reply := BuildLookupResponse(ix, req, inp, found, pol, digest);
    result := Some(found);
  }

  lemma OnlyCountersRefl(arena: seq<Entry>)
    ensures OnlyCounters(arena, arena)
  {}

  /** Every one of two or more serving replicas holds the overlap, at the same depth
      if it is a chain. */
  ghost predicate TrivialOverlap(q: Query, stats: map<StatsKey, StatEntry>, ranker: RankerConfig) {
    && |ServingSet(q)| >= 2
    && if ChainBearing(q.req) then
         && |q.req.blockHashes| == |q.req.blockTokenCounts|
         && var m := ChainBase(q, stats, ranker);
            m.Keys == ServingSet(q) && forall r, s :: r in m && s in m ==> m[r].matched == m[s].matched
       else ExactBase(q, stats, ranker).Keys == ServingSet(q)
  }

  lemma TrivialOverlapIsZero(q: Query, stats: map<StatsKey, StatEntry>, ranker: RankerConfig)
    requires TrivialOverlap(q, stats, ranker)
    ensures forall r :: r in LookupF(q, stats, ranker) ==> LookupF(q, stats, ranker)[r].score == 0.0
  {
    hide ServingSet, ChainBase, ExactBase, ChainScores, ExactScores;
    if ChainBearing(q.req) {
      TrivialOverlapScoresZero(q, stats, ranker);
    } else {
      TrivialExactOverlapScoresZero(q, stats, ranker);
    }
  }

  /** A trivial overlap is never delivered as a prefix match while the routing
      floor is positive. */
  lemma TrivialOverlapNotDelivered(q: Query, stats: map<StatsKey, StatEntry>, ranker: RankerConfig, objs: map<Held, Pointer>,
                                   result: LookupResult, req: RouteRequest, inp: Inputs, pol: Policies, es: Entries,
                                   digest: string -> nat, reply: Reply)
    requires Gated(result, q, stats, ranker, objs, pol) && q.req == IndexRequest(req, inp)
    requires Delivered(reply, result, req, inp, pol, es, digest)
    requires pol.RoutingFloorScore(q.req.tenant) > 0.0 && TrivialOverlap(q, stats, ranker)
    ensures reply.reason != PREFIX_MATCH
  {
    hide TrivialOverlap, LookupF, HotF, MissF, ByteBefore, Kept, ClearsPrefixFloor, Lists;
    TrivialOverlapIsZero(q, stats, ranker);
    if result.strategy.PrefixMatch? {
      ListedAreZero(result.scores, LookupF(q, stats, ranker));
      if |Survivors(result, pol, q.req.tenant)| > 0 {
        KeptExact(result.scores, pol.MinimumMatchedTokens(q.req.tenant), Survivors(result, pol, q.req.tenant)[0]);
      }
    }
  }

  lemma ListedAreZero(scores: seq<ReplicaScore>, m: Scores)
    requires Lists(scores, m) && forall r :: r in m ==> m[r].score == 0.0
    ensures forall x :: x in scores ==> x.score == 0.0
  {
    forall i | 0 <= i < |scores| ensures scores[i].score == 0.0 {
      assert scores[i].replica in Ids(scores);
    }
  }
}
