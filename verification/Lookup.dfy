/** Matching (internal/index/lookup.go:82-364): the block-by-block chain walk and the
    exact match. Each method is proved against the definition in `LookupModel` by
    scanning. The walks take the primary map and the arena as values.
 */
module Lookup {
  import opened Ordering
  import opened Domain
  import opened IndexModel
  import opened LookupModel
  import opened Ranking
  import opened Bookkeeping
  import opened Collect

  // ---- Which entries a match is made of ----

  /** What is credited when a replica's match is delivered: the entries of its
      matched run, in chain order. */
  ghost function RunPointers(objs: map<Held, Pointer>, req: LookupRequest, replica: string, n: nat): seq<Pointer>
    requires n <= |req.blockHashes|
    ensures |RunPointers(objs, req, replica, n)| == n
    ensures forall i :: 0 <= i < n && Block(req, i, replica) in objs ==>
              RunPointers(objs, req, replica, n)[i] == objs[Block(req, i, replica)]
  {
    if n == 0 then []
    else
      var h := Block(req, n - 1, replica);
      RunPointers(objs, req, replica, n - 1) + [if h in objs then objs[h] else 0]
  }

  type Hits = map<string, seq<Pointer>>

  ghost function ChainHits(q: Query, objs: map<Held, Pointer>, lfu: bool): Hits
    requires |q.req.blockHashes| == |q.req.blockTokenCounts|
  {
    map r | r in ServingSet(q) && lfu && ChainMatches(q, r) ::
      RunLenCharacterized(q, r, RunLen(q, r)); RunPointers(objs, q.req, r, RunLen(q, r))
  }

  ghost function ExactHits(q: Query, objs: map<Held, Pointer>, lfu: bool): Hits {
    map r | r in ServingSet(q) && lfu && ExactMatches(q, r) && q.es[ExactHeld(q.req, r)].tokens > 0 ::
      [if ExactHeld(q.req, r) in objs then objs[ExactHeld(q.req, r)] else 0]
  }

  ghost function HitsF(q: Query, objs: map<Held, Pointer>, lfu: bool): Hits {
    if q.req.hashScheme == "" then map[]
    else if ChainBearing(q.req) then
      if |q.req.blockHashes| != |q.req.blockTokenCounts| then map[] else ChainHits(q, objs, lfu)
    else ExactHits(q, objs, lfu)
  }

  // ---- The chain walk ----

  /** A replica's run so far. */
  datatype Running = Running(matched: int32, oldest: int, tier: int, entries: seq<Pointer>)

  ghost function RunState(q: Query, objs: map<Held, Pointer>, lfu: bool, replica: string, n: nat): Running
    requires |q.req.blockHashes| == |q.req.blockTokenCounts| && 0 < n <= RunLen(q, replica)
  {
    RunLenCharacterized(q, replica, n);
    Running(RunningSum(q.req.blockTokenCounts, n), Oldest(q, replica, n), RunTier(q, replica, n),
            if lfu then RunPointers(objs, q.req, replica, n) else [])
  }

  /** `current` holds exactly the replicas that hold the first `j` blocks. */
  ghost predicate Alive(current: map<string, Running>, q: Query, objs: map<Held, Pointer>, lfu: bool, j: nat)
    requires |q.req.blockHashes| == |q.req.blockTokenCounts| && 0 < j
  {
    && (forall r :: r in current <==> j <= RunLen(q, r))
    && (forall r :: r in current ==> current[r] == RunState(q, objs, lfu, r, j))
  }

  /** `finalized` holds exactly the runs shorter than `j` blocks. */
  ghost predicate Ended(finalized: map<string, Running>, q: Query, objs: map<Held, Pointer>, lfu: bool, j: nat)
    requires |q.req.blockHashes| == |q.req.blockTokenCounts|
  {
    && (forall r :: r in finalized <==> 0 < RunLen(q, r) < j)
    && (forall r :: r in finalized ==> finalized[r] == RunState(q, objs, lfu, r, RunLen(q, r)))
  }

  lemma RunStart(q: Query, objs: map<Held, Pointer>, lfu: bool, r: string)
    requires 0 < |q.req.blockHashes| == |q.req.blockTokenCounts|
    ensures Holds(q, r, 0) <==> 0 < RunLen(q, r)
    ensures Holds(q, r, 0) ==>
              var e := q.es[Block(q.req, 0, r)];
              && Block(q.req, 0, r) in q.es
              && RunState(q, objs, lfu, r, 1) == Running(q.req.blockTokenCounts[0], e.lastSeen, e.tier,
                   if lfu then [if Block(q.req, 0, r) in objs then objs[Block(q.req, 0, r)] else 0] else [])
  {
    RunLenCharacterized(q, r, 0);
    RunLenCharacterized(q, r, 1);
    if Holds(q, r, 0) {
      assert RunningSum(q.req.blockTokenCounts, 1) == Int32(RunningSum(q.req.blockTokenCounts, 0) + q.req.blockTokenCounts[0]);
    }
  }

  lemma RunStep(q: Query, objs: map<Held, Pointer>, lfu: bool, r: string, j: nat)
    requires j < |q.req.blockHashes| == |q.req.blockTokenCounts| && 0 < j <= RunLen(q, r)
    ensures Holds(q, r, j) <==> j < RunLen(q, r)
    ensures Holds(q, r, j) ==>
              && Block(q.req, j, r) in q.es
              && var e, st := q.es[Block(q.req, j, r)], RunState(q, objs, lfu, r, j);
                 RunState(q, objs, lfu, r, j + 1) ==
                 Running(Int32(st.matched + q.req.blockTokenCounts[j]), if e.lastSeen < st.oldest then e.lastSeen else st.oldest,
                         WorstTier(st.tier, e.tier),
                         if lfu then st.entries + [if Block(q.req, j, r) in objs then objs[Block(q.req, j, r)] else 0] else st.entries)
  {
    RunLenCharacterized(q, r, j);
    RunLenCharacterized(q, r, j + 1);
  }

  /** Block 0: every fresh holder starts a run. */
  method StartRuns(p: Nested, arena: seq<Entry>, req: LookupRequest, now: int, ttl: int, ghost q: Query, lfu: bool,
                   ghost objs: map<Held, Pointer>, ghost home: seq<Held>)
      returns (current: map<string, Running>)
    requires Linked(p, arena, objs, home) && q == Query(StoredIn(objs, arena), req, now, ttl)
    requires 0 < |req.blockHashes| == |req.blockTokenCounts|
    ensures Alive(current, q, objs, lfu, 1)
  {
    hide Linked, StoredIn, RunLen, RunState;
    var key := KeyFor(req, req.blockHashes[0]);
    var holders := Inner(p, key);
    current := map[];
    var ids := holders.Keys;
    forall r ensures Holds(q, r, 0) <==> 0 < RunLen(q, r) ensures Holds(q, r, 0) ==> r in ids {
      RunStart(q, objs, lfu, r);
      LinkedAt(p, arena, objs, home, Held(key, r));
    }
    while ids != {}
      invariant ids <= holders.Keys
      invariant forall r :: r in current <==> r !in ids && 0 < RunLen(q, r)
      invariant forall r :: r in current ==> current[r] == RunState(q, objs, lfu, r, 1)
      decreases ids
    {
      var id :| id in ids;
      ids := ids - {id};
      LinkedAt(p, arena, objs, home, Held(key, id));
      LinkedPointer(p, arena, objs, home, Held(key, id));
      RunStart(q, objs, lfu, id);
      var e := arena[holders[id]];
      if FreshnessAt(now, e.lastSeen, ttl) > 0.0 {
        current := current[id := Running(req.blockTokenCounts[0], e.lastSeen, e.tier, if lfu then [holders[id]] else [])];
      }
    }
  }

  lemma LinkedPointer(p: Nested, arena: seq<Entry>, objs: map<Held, Pointer>, home: seq<Held>, h: Held)
    requires Linked(p, arena, objs, home)
    ensures h in objs <==> h.replica in Inner(p, h.key)
    ensures h in objs ==> objs[h] == Inner(p, h.key)[h.replica] < |arena|
  {}

  /** Midway through block `j`: the replicas in `ids` are still to be decided. */
  ghost predicate Split(next: map<string, Running>, finalized: map<string, Running>, q: Query, objs: map<Held, Pointer>,
                        lfu: bool, j: nat, ids: set<string>)
    requires |q.req.blockHashes| == |q.req.blockTokenCounts| && 0 < j
  {
    && (forall r :: r in ids ==> j <= RunLen(q, r))
    && (forall r :: r in next <==> r !in ids && j < RunLen(q, r))
    && (forall r :: r in next ==> next[r] == RunState(q, objs, lfu, r, j + 1))
    && (forall r :: r in finalized <==> 0 < RunLen(q, r) < j || (r !in ids && RunLen(q, r) == j))
    && (forall r :: r in finalized ==> finalized[r] == RunState(q, objs, lfu, r, RunLen(q, r)))
  }

  lemma SplitStart(current: map<string, Running>, finalized: map<string, Running>, q: Query, objs: map<Held, Pointer>,
                   lfu: bool, j: nat)
    requires |q.req.blockHashes| == |q.req.blockTokenCounts| && 0 < j
    requires Alive(current, q, objs, lfu, j) && Ended(finalized, q, objs, lfu, j)
    ensures Split(map[], finalized, q, objs, lfu, j, current.Keys)
  {
    hide RunLen, RunState;
  }

  lemma SplitDecide(next: map<string, Running>, finalized: map<string, Running>, q: Query, objs: map<Held, Pointer>,
                    lfu: bool, j: nat,
                    ids: set<string>, id: string)
    requires |q.req.blockHashes| == |q.req.blockTokenCounts| && 0 < j && id in ids
    requires Split(next, finalized, q, objs, lfu, j, ids)
    ensures j <= RunLen(q, id)
    ensures RunLen(q, id) == j ==>
              Split(next, finalized[id := RunState(q, objs, lfu, id, j)], q, objs, lfu, j, ids - {id})
    ensures RunLen(q, id) > j ==>
              Split(next[id := RunState(q, objs, lfu, id, j + 1)], finalized, q, objs, lfu, j, ids - {id})
  {
    hide RunLen, RunState;
  }

  lemma SplitDone(next: map<string, Running>, finalized: map<string, Running>, q: Query, objs: map<Held, Pointer>,
                  lfu: bool, j: nat)
    requires |q.req.blockHashes| == |q.req.blockTokenCounts| && 0 < j
    requires Split(next, finalized, q, objs, lfu, j, {})
    ensures Alive(next, q, objs, lfu, j + 1) && Ended(finalized, q, objs, lfu, j + 1)
  {
    hide RunLen, RunState;
  }

  /** Block `j`: a run is extended or closed, and none starts. */
  method ExtendRuns(p: Nested, arena: seq<Entry>, req: LookupRequest, now: int, ttl: int, ghost q: Query, lfu: bool,
                    j: nat,
                    current: map<string, Running>, before: map<string, Running>,
                    ghost objs: map<Held, Pointer>, ghost home: seq<Held>)
      returns (next: map<string, Running>, finalized: map<string, Running>)
    requires Linked(p, arena, objs, home) && q == Query(StoredIn(objs, arena), req, now, ttl)
    requires 0 < j < |req.blockHashes| == |req.blockTokenCounts|
    requires Alive(current, q, objs, lfu, j) && Ended(before, q, objs, lfu, j)
    ensures Alive(next, q, objs, lfu, j + 1) && Ended(finalized, q, objs, lfu, j + 1)
  {
    hide Linked, StoredIn, RunLen, RunState, Holds, FreshnessAt, Ended, Split;
    var key := KeyFor(req, req.blockHashes[j]);
    var holders := Inner(p, key);
    next, finalized := map[], before;
    var ids := current.Keys;
    SplitStart(current, before, q, objs, lfu, j);
    while ids != {}
      invariant ids <= current.Keys && Split(next, finalized, q, objs, lfu, j, ids)
      decreases ids
    {
      var id :| id in ids;
      SplitDecide(next, finalized, q, objs, lfu, j, ids, id);
      ids := ids - {id};
      var st := current[id];
      RunStep(q, objs, lfu, id, j);
      HoldsAt(p, arena, q, objs, home, id, j);
      if id !in holders || FreshnessAt(now, arena[holders[id]].lastSeen, ttl) <= 0.0 {
        finalized := finalized[id := st];
      } else {
        var e := arena[holders[id]];
        var oldest := if e.lastSeen < st.oldest then e.lastSeen else st.oldest;
        next := next[id := Running(Int32(st.matched + req.blockTokenCounts[j]), oldest, WorstTier(st.tier, e.tier),
                                   if lfu then st.entries + [holders[id]] else st.entries)];
      }
    }
    SplitDone(next, finalized, q, objs, lfu, j);
  }

  /** Holding a block, read off the primary map. */
  lemma HoldsAt(p: Nested, arena: seq<Entry>, q: Query, objs: map<Held, Pointer>, home: seq<Held>, r: string, j: nat)
    requires Linked(p, arena, objs, home) && q.es == StoredIn(objs, arena) && j < |q.req.blockHashes|
    ensures var h := Block(q.req, j, r);
            var holders := Inner(p, h.key);
            && (r in holders ==> holders[r] < |arena| && h in objs && objs[h] == holders[r] && h in q.es && q.es[h] == arena[holders[r]])
            && (Holds(q, r, j) <==> r in holders && FreshnessAt(q.now, arena[holders[r]].lastSeen, q.ttl) > 0.0)
  {
    LinkedAt(p, arena, objs, home, Block(q.req, j, r));
    LinkedPointer(p, arena, objs, home, Block(q.req, j, r));
  }

  /** Replicas still running at the end matched the full chain; when none is
      left the walk may stop early. */
  lemma WalkDone(current: map<string, Running>, finalized: map<string, Running>, q: Query, objs: map<Held, Pointer>,
                 lfu: bool, j: nat)
    requires 0 < j <= |q.req.blockHashes| == |q.req.blockTokenCounts|
    requires Alive(current, q, objs, lfu, j) && Ended(finalized, q, objs, lfu, j)
    requires j == |q.req.blockHashes| || current == map[]
    ensures Ended(finalized + current, q, objs, lfu, |q.req.blockHashes| + 1)
  {
    hide RunLen, RunState;
    forall r ensures RunLen(q, r) <= |q.req.blockHashes| ensures current == map[] ==> r !in current {
      RunLenCharacterized(q, r, 0);
    }
  }

  lemma WalkStart(q: Query, objs: map<Held, Pointer>, lfu: bool)
    requires |q.req.blockHashes| == |q.req.blockTokenCounts|
    ensures Ended(map[], q, objs, lfu, 1)
  {}

  /** The whole walk: every replica with a non-empty run, at its full length. */
  method WalkChain(p: Nested, arena: seq<Entry>, req: LookupRequest, now: int, ttl: int, ghost q: Query, lfu: bool,
                   ghost objs: map<Held, Pointer>, ghost home: seq<Held>) returns (finalized: map<string, Running>)
    requires Linked(p, arena, objs, home) && q == Query(StoredIn(objs, arena), req, now, ttl)
    requires 0 < |req.blockHashes| == |req.blockTokenCounts|
    ensures Ended(finalized, q, objs, lfu, |req.blockHashes| + 1)
  {
    hide Linked, StoredIn, Alive, Ended;
    finalized := map[];
    WalkStart(q, objs, lfu);
    var current := StartRuns(p, arena, req, now, ttl, q, lfu, objs, home);
    var j := 1;
    while j < |req.blockHashes| && current != map[]
      invariant 1 <= j <= |req.blockHashes|
      invariant Alive(current, q, objs, lfu, j) && Ended(finalized, q, objs, lfu, j)
    {
      current, finalized := ExtendRuns(p, arena, req, now, ttl, q, lfu, j, current, finalized, objs, home);
      j := j + 1;
    }
    WalkDone(current, finalized, q, objs, lfu, j);
    finalized := finalized + current;
  }

  // ---- Scoring ----

  lemma ListsAppend(q: seq<ReplicaScore>, m: Scores, sc: ReplicaScore)
    requires Lists(q, m) && sc.replica !in m
    ensures Lists(q + [sc], m[sc.replica := sc])
  {
    var q' := q + [sc];
    forall i | 0 <= i < |q| ensures q'[i].replica != sc.replica {
      assert q[i].replica in Ids(q);
    }
    assert Ids(q') == Ids(q) + {sc.replica} by {
      forall r | r in Ids(q) ensures r in Ids(q') {
        var i :| 0 <= i < |q| && q[i].replica == r;
        assert q'[i].replica == r;
      }
      assert q'[|q|].replica in Ids(q');
    }
  }

  lemma RunScore(q: Query, objs: map<Held, Pointer>, lfu: bool, stats: map<StatsKey, StatEntry>, ranker: RankerConfig,
                 r: string)
    requires |q.req.blockHashes| == |q.req.blockTokenCounts| && 0 < RunLen(q, r)
    ensures var st := RunState(q, objs, lfu, r, RunLen(q, r));
            && (ChainMatches(q, r) <==> st.matched > 0)
            && FreshnessAt(q.now, st.oldest, q.ttl) > 0.0
            && r in ServingSet(q)
            && var f := FreshnessAt(q.now, st.oldest, q.ttl);
               ChainScoreOf(q, stats, ranker, r) ==
               ReplicaScore(r, BaseScore(st.matched, f, PressureOf(q, stats, r), ranker, q.req.ttftBudgetMs), st.matched, f, st.tier)
    ensures RunLen(q, r) <= |q.req.blockHashes|
    ensures lfu ==> RunState(q, objs, lfu, r, RunLen(q, r)).entries == RunPointers(objs, q.req, r, RunLen(q, r))
  {
    RunLenCharacterized(q, r, RunLen(q, r));
    RunStaysFresh(q, r, RunLen(q, r));
    assert Holds(q, r, 0);
    MatchesAreServing(q, r);
  }

  /** The finalized runs become scores; an empty or worthless run gives none. */
  method ScoreRuns(finalized: map<string, Running>, req: LookupRequest, now: int, ttl: int, ghost q: Query, lfu: bool,
                   stats: map<StatsKey, StatEntry>, ranker: RankerConfig,
                   ghost objs: map<Held, Pointer>) returns (scores: seq<ReplicaScore>, hits: Hits)
    requires |req.blockHashes| == |req.blockTokenCounts| && q == Query(q.es, req, now, ttl)
    requires Ended(finalized, q, objs, lfu, |req.blockHashes| + 1)
    ensures Lists(scores, ChainBase(q, stats, ranker)) && hits == ChainHits(q, objs, lfu)
  {
    hide Lists, RunLen, RunState, ChainMatches, ChainScoreOf, RunPointers, FreshnessAt, PressureAt, BaseScore, ServingSet;
    scores, hits := [], map[];
    ghost var m: Scores := map[];
    assert Lists(scores, m) by { ListsNothing(); }
    var ids := finalized.Keys;
    forall r ensures RunLen(q, r) <= |req.blockHashes| ensures ChainMatches(q, r) ==> 0 < RunLen(q, r) && r in ServingSet(q) {
      MatchFacts(q, r);
    }
    while ids != {}
      invariant ids <= finalized.Keys && Lists(scores, m)
      invariant forall r :: r in m <==> r !in ids && ChainMatches(q, r)
      invariant forall r :: r in m ==> m[r] == ChainScoreOf(q, stats, ranker, r)
      invariant forall r :: r in hits <==> lfu && r !in ids && ChainMatches(q, r)
      invariant forall r :: r in hits ==> hits[r] == RunPointers(objs, req, r, RunLen(q, r))
      decreases ids
    {
      var id :| id in ids;
      ids := ids - {id};
      var st := finalized[id];
      RunScore(q, objs, lfu, stats, ranker, id);
      var freshness := FreshnessAt(now, st.oldest, ttl);
      if st.matched > 0 && freshness > 0.0 {
        if lfu && |st.entries| > 0 {
          hits := hits[id := st.entries];
        }
        var pressure := PressureAt(stats, StatsKey(req.tenant, req.model, id), now, ttl);
        var sc := ReplicaScore(id, BaseScore(st.matched, freshness, pressure, ranker, req.ttftBudgetMs),
                               st.matched, freshness, st.tier);
        ListsAppend(scores, m, sc);
        scores := scores + [sc];
        m := m[id := sc];
      }
    }
    assert m == ChainBase(q, stats, ranker);
    assert hits == ChainHits(q, objs, lfu);
  }

  lemma ListsNothing()
    ensures Lists([], map[])
  {}

  lemma MatchFacts(q: Query, r: string)
    requires |q.req.blockHashes| == |q.req.blockTokenCounts|
    ensures RunLen(q, r) <= |q.req.blockHashes|
    ensures ChainMatches(q, r) ==> 0 < RunLen(q, r) && r in ServingSet(q)
  {
    RunLenCharacterized(q, r, RunLen(q, r));
    if ChainMatches(q, r) {
      assert Holds(q, r, 0);
      MatchesAreServing(q, r);
    }
  }

  method LookupChain(p: Nested, arena: seq<Entry>, req: LookupRequest, now: int, ttl: int, ghost q: Query, lfu: bool,
                     stats: map<StatsKey, StatEntry>, ranker: RankerConfig,
                     total: int, ghost objs: map<Held, Pointer>, ghost home: seq<Held>)
      returns (scores: seq<ReplicaScore>, hits: Hits)
    requires Linked(p, arena, objs, home) && q == Query(StoredIn(objs, arena), req, now, ttl)
    requires 0 < |req.blockHashes| == |req.blockTokenCounts| && total == |ServingSet(q)|
    ensures Lists(scores, ChainScores(q, stats, ranker)) && BestFirst(scores)
    ensures hits == ChainHits(q, objs, lfu)
  {
    hide Linked, StoredIn, Ended, Lists, ChainBase, ChainHits, Discounted, ServingSet, ByteBefore;
    var finalized := WalkChain(p, arena, req, now, ttl, q, lfu, objs, home);
    scores, hits := ScoreRuns(finalized, req, now, ttl, q, lfu, stats, ranker, objs);
    ghost var m := ChainBase(q, stats, ranker);
    var a := new ReplicaScore[|scores|](i requires 0 <= i < |scores| => scores[i]);
    assert a[..] == scores;
    ApplyChainDistinguishingPower(a, total, m);
    SortByScore(a, Discounted(m, total));
    scores := a[..];
  }

  // ---- The exact match ----

  /** The exact match, read off the primary map. */
  lemma ExactAt(p: Nested, arena: seq<Entry>, q: Query, objs: map<Held, Pointer>, home: seq<Held>, r: string)
    requires Linked(p, arena, objs, home) && q.es == StoredIn(objs, arena)
    ensures var h := ExactHeld(q.req, r);
            var holders := Inner(p, h.key);
            && (r in holders ==> holders[r] < |arena| && h in objs && objs[h] == holders[r] && h in q.es && q.es[h] == arena[holders[r]])
            && (ExactMatches(q, r) <==> r in holders && FreshnessAt(q.now, arena[holders[r]].lastSeen, q.ttl) > 0.0)
    ensures ExactMatches(q, r) ==> r in ServingSet(q)
  {
    LinkedAt(p, arena, objs, home, ExactHeld(q.req, r));
    LinkedPointer(p, arena, objs, home, ExactHeld(q.req, r));
    MatchesAreServing(q, r);
  }

  method ScoreHolders(p: Nested, arena: seq<Entry>, req: LookupRequest, now: int, ttl: int, ghost q: Query, lfu: bool,
                      stats: map<StatsKey, StatEntry>, ranker: RankerConfig,
                      ghost objs: map<Held, Pointer>, ghost home: seq<Held>)
      returns (scores: seq<ReplicaScore>, hits: Hits)
    requires Linked(p, arena, objs, home) && q == Query(StoredIn(objs, arena), req, now, ttl)
    ensures Lists(scores, ExactBase(q, stats, ranker)) && hits == ExactHits(q, objs, lfu)
  {
    hide Linked, StoredIn, Lists, FreshnessAt, PressureAt, BaseScore, ServingSet, ExactMatches;
    var key := KeyFor(req, req.prefixHash);
    var holders := Inner(p, key);
    scores, hits := [], map[];
    ghost var m: Scores := map[];
    assert Lists(scores, m) by { ListsNothing(); }
    var ids := holders.Keys;
    forall r ensures ExactMatches(q, r) ==> r in ids && r in ServingSet(q) && ExactHeld(req, r) in q.es && ExactHeld(req, r) in objs {
      ExactAt(p, arena, q, objs, home, r);
    }
    while ids != {}
      invariant ids <= holders.Keys && Lists(scores, m)
      invariant forall r :: r in m <==> r !in ids && ExactMatches(q, r)
      invariant forall r :: r in m ==> m[r] == ExactScoreOf(q, stats, ranker, r)
      invariant forall r :: r in hits <==> lfu && r !in ids && ExactMatches(q, r) && q.es[ExactHeld(req, r)].tokens > 0
      invariant forall r :: r in hits ==> hits[r] == [objs[ExactHeld(req, r)]]
      decreases ids
    {
      var id :| id in ids;
      ids := ids - {id};
      ExactAt(p, arena, q, objs, home, id);
      var e := arena[holders[id]];
      var freshness := FreshnessAt(now, e.lastSeen, ttl);
      if freshness > 0.0 {
        if lfu && e.tokens > 0 {
          hits := hits[id := [holders[id]]];
        }
        var pressure := PressureAt(stats, StatsKey(req.tenant, req.model, id), now, ttl);
        var sc := ReplicaScore(id, BaseScore(e.tokens, freshness, pressure, ranker, req.ttftBudgetMs),
                               e.tokens, freshness, e.tier);
        ListsAppend(scores, m, sc);
        scores := scores + [sc];
        m := m[id := sc];
      }
    }
    assert m == ExactBase(q, stats, ranker);
    assert hits == ExactHits(q, objs, lfu);
  }

  lemma ListsCard(q: seq<ReplicaScore>, m: Scores)
    requires Lists(q, m)
    ensures |q| == |m|
  {
    IdsCard(q);
  }

  method LookupExact(p: Nested, arena: seq<Entry>, req: LookupRequest, now: int, ttl: int, ghost q: Query, lfu: bool,
                     stats: map<StatsKey, StatEntry>, ranker: RankerConfig,
                     total: int, ghost objs: map<Held, Pointer>, ghost home: seq<Held>)
      returns (scores: seq<ReplicaScore>, hits: Hits)
    requires Linked(p, arena, objs, home) && q == Query(StoredIn(objs, arena), req, now, ttl) && total == |ServingSet(q)|
    ensures Lists(scores, ExactScores(q, stats, ranker)) && BestFirst(scores)
    ensures hits == ExactHits(q, objs, lfu)
  {
    hide Linked, StoredIn, Lists, ExactBase, ExactHits, ServingSet, ByteBefore, DistinguishingPower;
    scores, hits := ScoreHolders(p, arena, req, now, ttl, q, lfu, stats, ranker, objs, home);
    ghost var m := ExactBase(q, stats, ranker);
    ListsCard(scores, m);
    var a := new ReplicaScore[|scores|](i requires 0 <= i < |scores| => scores[i]);
    assert a[..] == scores;
    var factor := DistinguishingPower(a.Length, total);
    if factor != 1.0 {
      ScaleRange(a, 0, a.Length, factor);
    }
    UniformLists(scores, a[..], m, factor);
    SortByScore(a, ExactScores(q, stats, ranker));
    scores := a[..];
  }

  lemma UniformLists(q: seq<ReplicaScore>, q': seq<ReplicaScore>, m: Scores, factor: real)
    requires Lists(q, m) && |q'| == |q|
    requires forall i :: 0 <= i < |q| ==> q'[i] == if factor == 1.0 then q[i] else Scale(q[i], factor)
    ensures Lists(q', map r | r in m :: Scale(m[r], factor))
  {
    forall i | 0 <= i < |q| ensures q'[i] == Scale(q[i], factor) {
      assert factor == 1.0 ==> q[i].score * factor == q[i].score;
    }
    assert Ids(q') == Ids(q) by {
      forall i | 0 <= i < |q| ensures q'[i].replica in Ids(q) && q[i].replica in Ids(q') {}
    }
  }
}
