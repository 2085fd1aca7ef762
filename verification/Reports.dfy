/** What reports and events say, in terms of their own fields
    (internal/index/ingest.go:24-200), and that this is what the index does with them:
    where a reported prefix is filed and with what, what an event takes away, and,
    over whole runs, that a stored entry is some report nobody has reported over or
    withdrawn since.
 */
module Reports {
  import opened Domain
  import opened Policy
  import opened IndexModel
  import opened LookupModel
  import opened Runs
  import opened Sweeps

  // ---- What a report says ----

  /** The reference is about the key's partition. Its own adapter goes before the
      update's. */
  predicate Files(u: Update, p: PrefixRef, key: PrefixKey) {
    && key.tenant == u.tenant && key.model == u.model && key.hashScheme == u.hashScheme
    && (if p.adapter != "" then key.adapter == p.adapter else key.adapter == u.adapter)
  }

  /** The key is named as a whole prefix: by a plain reference, or beside a chain. */
  predicate NamesPrefix(p: PrefixRef, hash: string) {
    p.prefixHash == hash && |p.blockHashes| == |p.blockTokenCounts| && (p.blockHashes == [] || hash != "")
  }

  /** The key is block `i` of a chain with as many counts as blocks. */
  predicate NamesBlock(p: PrefixRef, hash: string, i: nat) {
    i < |p.blockHashes| == |p.blockTokenCounts| && p.blockHashes[i] == hash
  }

  predicate Names(u: Update, p: PrefixRef, key: PrefixKey) {
    Files(u, p, key) && (NamesPrefix(p, key.prefixHash) || exists i: nat :: i < |p.blockHashes| && NamesBlock(p, key.prefixHash, i))
  }

  /** The update says something about the hold. Without a scheme it says nothing. */
  predicate Reported(u: Update, h: Held) {
    u.replica == h.replica && u.hashScheme != "" && exists k: nat :: k < |u.prefixes| && Names(u, u.prefixes[k], h.key)
  }

  /** The tokens a reference claims for a hash: its own count for a whole prefix, else
      the sum of the counts up to the last block with that hash, in 32 bits. */
  ghost predicate ClaimsTokens(p: PrefixRef, hash: string, tokens: int32) {
    if NamesPrefix(p, hash) then tokens == p.tokenCount
    else exists i: nat ::
           && i < |p.blockHashes| && NamesBlock(p, hash, i) && (forall j: nat :: i < j < |p.blockHashes| ==> p.blockHashes[j] != hash)
           && (PlainSum(p.blockTokenCounts, i + 1) - tokens) % 0x1_0000_0000 == 0
  }

  /** The entry is what the reference says about the hash at that time. */
  ghost predicate Says(p: PrefixRef, hash: string, time: int, r: Report) {
    && ClaimsTokens(p, hash, r.tokens)
    && r.tier == (if p.tier == 0 then 1 else p.tier) && r.lastSeen == time
  }

  /** The last reference of the update about the hold says so. */
  ghost predicate SaysLast(u: Update, h: Held, time: int, r: Report) {
    exists k: nat ::
      && k < |u.prefixes| && Names(u, u.prefixes[k], h.key) && Says(u.prefixes[k], h.key.prefixHash, time, r)
      && forall j: nat :: k < j < |u.prefixes| ==> !Names(u, u.prefixes[j], h.key)
  }

  // ---- The writes of a report are that ----

  lemma {:induction false} SumIsTotal(counts: seq<int32>, n: nat)
    requires n <= |counts|
    ensures (PlainSum(counts, n) - RunningSum(counts, n)) % 0x1_0000_0000 == 0
  {
    if n > 0 {
      SumIsTotal(counts, n - 1);
      var a: int, b: int, c: int, r: int := PlainSum(counts, n - 1), RunningSum(counts, n - 1), counts[n - 1], RunningSum(counts, n);
      assert (b + c - r) % 0x1_0000_0000 == 0;
      ModSum(a - b, b + c - r);
    }
  }

  lemma ModSum(x: int, y: int)
    requires x % 0x1_0000_0000 == 0 && y % 0x1_0000_0000 == 0
    ensures (x + y) % 0x1_0000_0000 == 0
  {}

  lemma {:induction false} LastWriteAppend(a: seq<Write>, b: seq<Write>, key: PrefixKey)
    ensures LastWrite(a + b, key) == if LastWrite(b, key).Some? then LastWrite(b, key) else LastWrite(a, key)
  {
    if b == [] {
      assert a + b == a;
    } else {
      assert (a + b)[..|a + b| - 1] == a + b[..|b| - 1];
      LastWriteAppend(a, b[..|b| - 1], key);
    }
  }

  /** The last block with the hash decides. */
  lemma {:induction false} ChainSays(u: Update, p: PrefixRef, n: nat, key: PrefixKey) returns (i: nat)
    requires n <= |p.blockHashes| == |p.blockTokenCounts|
    ensures var w := LastWrite(ChainWrites(u, p, n), key);
            if w.Some? then
              && Files(u, p, key) && i < n && p.blockHashes[i] == key.prefixHash
              && (forall j: nat :: i < j < n ==> p.blockHashes[j] != key.prefixHash)
              && w.value.tier == (if p.tier == 0 then 1 else p.tier) && w.value.tokens == RunningSum(p.blockTokenCounts, i + 1)
            else !Files(u, p, key) || forall j: nat :: j < n ==> p.blockHashes[j] != key.prefixHash
  {
    hide LastWrite, RunningSum;
    if n == 0 {
      NoWrite(key);
      i := 0;
    } else {
      i := ChainSays(u, p, n - 1, key);
      var last := Write(KeyIn(u, p, p.blockHashes[n - 1]), RunningSum(p.blockTokenCounts, n), NormalizeTier(p.tier));
      LastWriteAppend(ChainWrites(u, p, n - 1), [last], key);
      OneWrite(last, key);
      if last.key == key {
        i := n - 1;
      }
    }
  }

  lemma RefSays(u: Update, p: PrefixRef, key: PrefixKey, time: int)
    ensures var w := LastWrite(RefWrites(u, p), key);
            && (w.Some? <==> Names(u, p, key))
            && (w.Some? ==> Says(p, key.prefixHash, time, Report(w.value.tokens, w.value.tier, time)))
  {
    hide RunningSum, LastWrite, PlainSum;
    var legacy := LegacyWrite(u, p);
    assert LastWrite([legacy], key) == if legacy.key == key then Some(legacy) else None by { OneWrite(legacy, key); }
    if |p.blockHashes| == |p.blockTokenCounts| && ChainForm(p) {
      var n := |p.blockHashes|;
      var i := ChainSays(u, p, n, key);
      forall k: nat | k <= n ensures (PlainSum(p.blockTokenCounts, k) - RunningSum(p.blockTokenCounts, k)) % 0x1_0000_0000 == 0 {
        SumIsTotal(p.blockTokenCounts, k);
      }
      forall i: nat | i < n ensures NamesBlock(p, key.prefixHash, i) <==> p.blockHashes[i] == key.prefixHash {
      }
      LastWriteAppend(ChainWrites(u, p, n), if |p.prefixHash| > 0 then [legacy] else [], key);
      NoWrite(key);
    } else {
      NoWrite(key);
    }
  }

  lemma OneWrite(w: Write, key: PrefixKey)
    ensures LastWrite([w], key) == if w.key == key then Some(w) else None
  {
    assert [w][..0] == [];
  }

  lemma NoWrite(key: PrefixKey)
    ensures LastWrite([], key) == None
  {}

  lemma {:induction false} FirstSay(u: Update, n: nat, key: PrefixKey, time: int)
    requires n <= |u.prefixes|
    ensures var w := LastWrite(FirstWrites(u, n), key);
            && (w.Some? <==> exists k: nat :: k < n && Names(u, u.prefixes[k], key))
            && (w.Some? ==> exists k: nat ::
                  && k < n && Names(u, u.prefixes[k], key)
                  && Says(u.prefixes[k], key.prefixHash, time, Report(w.value.tokens, w.value.tier, time))
                  && forall j: nat :: k < j < n ==> !Names(u, u.prefixes[j], key))
  {
    hide RefWrites, LastWrite, Names, Says;
    if n == 0 {
      NoWrite(key);
    } else {
      FirstSay(u, n - 1, key, time);
      RefSays(u, u.prefixes[n - 1], key, time);
      LastWriteAppend(FirstWrites(u, n - 1), RefWrites(u, u.prefixes[n - 1]), key);
    }
  }

  /** The writes of an update are what its last references say. */
  lemma UpdateSays(u: Update, h: Held, time: int)
    ensures var w := LastWrite(Writes(u), h.key);
            && (u.replica == h.replica && w.Some? <==> Reported(u, h))
            && (Reported(u, h) ==> w.Some? && SaysLast(u, h, time, Report(w.value.tokens, w.value.tier, time)))
  {
    hide FirstWrites, LastWrite, Names, Says;
    NoWrite(h.key);
    FirstSay(u, |u.prefixes|, h.key, time);
  }

  // ---- What an event withdraws ----

  /** An eviction names tenant, model, replica and hash, and an adapter or all of them;
      a clearing event names tenant, model and replica. */
  predicate Withdraws(ev: Event, h: Held) {
    && h.replica == ev.replica && h.key.tenant == ev.tenant && h.key.model == ev.model
    && (|| ev.kind.AllCleared?
        || (ev.kind.PrefixEvicted? && h.key.prefixHash == ev.prefixHash && (ev.adapter == "" || h.key.adapter == ev.adapter)))
  }

  /** An event takes away exactly what it withdraws, and changes no other entry. */
  lemma EventTakes(st: State, ev: Event, now: int, h: Held)
    ensures h in EventF(st, ev, now).entries <==> h in st.entries && !Withdraws(ev, h)
    ensures h in EventF(st, ev, now).entries ==> EventF(st, ev, now).entries[h] == st.entries[h]
  {}

  /** A clearing event takes the replica's stats of that model too; a liveness event
      moves the time a known replica was seen and nothing it reported; other events
      leave stats alone. */
  lemma EventStatsExactly(st: State, ev: Event, now: int, s: StatsKey)
    ensures var mine := s.tenant == ev.tenant && s.model == ev.model && s.replica == ev.replica;
            var before, after := st.stats, EventF(st, ev, now).stats;
            && (s in after <==> s in before && !(mine && ev.kind.AllCleared?))
            && (s in after ==>
                  && after[s].stats == before[s].stats && after[s].statsReported == before[s].statsReported
                  && after[s].lastSeen == (if !mine || !ev.kind.ReplicaUpdated? then before[s].lastSeen
                                           else if ev.timestamp == 0 then now else ev.timestamp))
  {}

  // ---- One report ----

  /** What survives of a report is what it says; with room under budget and cap all of
      it survives, and what it does not speak of stays as it was. */
  lemma StoredAsReported(st: State, u: Update, now: int, pol: Policies, cfg: Config, h: Held)
    ensures var after := IngestF(st, u, now, pol, cfg).entries;
            && (h in after && Reported(u, h) ==> SaysLast(u, h, if u.timestamp == 0 then now else u.timestamp, ReportOf(after[h])))
            && (h in after && !Reported(u, h) ==> h in st.entries && after[h] == st.entries[h])
            && (HasRoom(st, Ingest(u, now, pol), cfg) ==> (h in after <==> h in st.entries || Reported(u, h)))
  {
    hide IngestF, Writes, PutAll, LastWrite, Reported, SaysLast, HasRoom;
    var ts := TimeOf(u.timestamp, now);
    UpdateSays(u, h, ts);
    PutAllAt(st.entries, Writes(u), u.replica, ts, h);
    if h in IngestF(st, u, now, pol, cfg).entries {
      IngestKeepsOnlyWrites(st, u, now, pol, cfg, h);
    }
    if HasRoom(st, Ingest(u, now, pol), cfg) {
      RoomToWrite(st, Ingest(u, now, pol), cfg);
    }
  }

  /** Stats that come with a report replace the replica's for that tenant and model,
      under its own name, as seen and reported at that time; others stay. */
  lemma StatsAsReported(st: State, u: Update, now: int, pol: Policies, cfg: Config, s: StatsKey)
    ensures var mine := s.tenant == u.tenant && s.model == u.model && s.replica == u.replica && u.stats.Some?;
            var time, after := if u.timestamp == 0 then now else u.timestamp, IngestF(st, u, now, pol, cfg).stats;
            && (s in after <==> s in st.stats || mine)
            && (mine ==> after[s].stats == u.stats.value.(replica := u.replica) && after[s].lastSeen == after[s].statsReported == time)
            && (s in after && !mine ==> after[s] == st.stats[s])
  {
    hide PutAll, Writes, QuotaF, CapF;
  }

  /** A report refreshes an entry without touching its frequency counter. */
  lemma ReportKeepsCounter(st: State, u: Update, now: int, pol: Policies, cfg: Config, h: Held)
    requires h in IngestF(st, u, now, pol, cfg).entries
    ensures IngestF(st, u, now, pol, cfg).entries[h].hits == if h in st.entries then st.entries[h].hits else 0
  {
    hide IngestF, Writes;
    IngestKeepsOnlyWrites(st, u, now, pol, cfg, h);
    PutAllHits(st.entries, Writes(u), u.replica, TimeOf(u.timestamp, now), h);
  }

  lemma {:induction false} PutAllHits(es: Entries, ws: seq<Write>, replica: string, ts: int, h: Held)
    requires h in PutAll(es, ws, replica, ts)
    ensures PutAll(es, ws, replica, ts)[h].hits == if h in es then es[h].hits else 0
  {
    if ws != [] {
      var before := PutAll(es, ws[..|ws| - 1], replica, ts);
      if h in before {
        PutAllHits(es, ws[..|ws| - 1], replica, ts, h);
      } else if h in es {
        PutAllKeeps(es, ws[..|ws| - 1], replica, ts, h);
      }
    }
  }

  lemma {:induction false} PutAllKeeps(es: Entries, ws: seq<Write>, replica: string, ts: int, h: Held)
    requires h in es
    ensures h in PutAll(es, ws, replica, ts)
  {
    if ws != [] {
      PutAllKeeps(es, ws[..|ws| - 1], replica, ts, h);
    }
  }

  // ---- Whole runs ----

  /** The operation has nothing to say about the hold. */
  predicate Silent(op: Op, h: Held) {
    && (op.Ingest? ==> !Reported(op.u, h))
    && (op.Publish? ==> !Withdraws(op.ev, h))
  }

  /** Operation `i` reported the hold as `r`, and nobody has reported or withdrawn it
      since. */
  ghost predicate LastSaid(ops: seq<Op>, h: Held, i: nat, r: Report) {
    && i < |ops| && ops[i].Ingest? && Reported(ops[i].u, h)
    && SaysLast(ops[i].u, h, if ops[i].u.timestamp == 0 then ops[i].now else ops[i].u.timestamp, r)
    && forall j: nat :: i < j < |ops| ==> Silent(ops[j], h)
  }

  lemma SilentStep(st: State, op: Op, cfg: Config, h: Held)
    requires Silent(op, h) && h in Step(st, op, cfg).entries
    ensures h in st.entries && ReportOf(Step(st, op, cfg).entries[h]) == ReportOf(st.entries[h])
  {
    hide IngestF, EventF, Reported, Withdraws, SaysLast, HasRoom;
    match op
    case Ingest(u, now, pol) => StoredAsReported(st, u, now, pol, cfg, h);
    case Publish(ev, now) => EventTakes(st, ev, now, h);
    case _ =>
  }

  lemma SpokenStep(st: State, op: Op, cfg: Config, h: Held)
    requires !Silent(op, h) && h in Step(st, op, cfg).entries
    ensures op.Ingest? && Reported(op.u, h)
    ensures SaysLast(op.u, h, if op.u.timestamp == 0 then op.now else op.u.timestamp, ReportOf(Step(st, op, cfg).entries[h]))
  {
    hide IngestF, EventF, Reported, Withdraws, SaysLast, HasRoom;
    match op
    case Ingest(u, now, pol) => StoredAsReported(st, u, now, pol, cfg, h);
    case Publish(ev, now) => EventTakes(st, ev, now, h);
    case _ =>
  }

  /** In every run a stored entry is, field by field, what its replica last reported. */
  lemma {:induction false} StoredWasReported(ops: seq<Op>, cfg: Config, h: Held) returns (i: nat)
    requires h in Run(ops, cfg).entries
    ensures LastSaid(ops, h, i, ReportOf(Run(ops, cfg).entries[h]))
  {
    hide Step, Silent, Reported, SaysLast;
    var before, op := ops[..|ops| - 1], ops[|ops| - 1];
    if Silent(op, h) {
      SilentStep(Run(before, cfg), op, cfg, h);
      i := StoredWasReported(before, cfg, h);
      assert forall j: nat :: i < j < |before| ==> Silent(before[j], h);
    } else {
      SpokenStep(Run(before, cfg), op, cfg, h);
      i := |ops| - 1;
    }
  }

  /** What an event withdrew, and its replica has not reported since, is stored in no
      later state. */
  lemma WithdrawnStaysGone(ops: seq<Op>, cfg: Config, h: Held, i: nat)
    requires i < |ops| && ops[i].Publish? && Withdraws(ops[i].ev, h)
    requires forall j: nat :: i < j < |ops| && ops[j].Ingest? ==> !Reported(ops[j].u, h)
    ensures h !in Run(ops, cfg).entries
  {
    hide Reported, SaysLast, Run;
    assert !Silent(ops[i], h);
    if h in Run(ops, cfg).entries {
      var k := StoredWasReported(ops, cfg, h);
      assert false;
    }
  }

  /** So the replica is in no exact match of that prefix, and no chain match of it
      reaches that block. */
  lemma WithdrawnIsNotMatched(ops: seq<Op>, cfg: Config, h: Held, i: nat, req: LookupRequest, now: int, ttl: int,
                              stats: map<StatsKey, StatEntry>)
    requires i < |ops| && ops[i].Publish? && Withdraws(ops[i].ev, h)
    requires forall j: nat :: i < j < |ops| && ops[j].Ingest? ==> !Reported(ops[j].u, h)
    requires req.tenant == h.key.tenant && req.model == h.key.model && req.hashScheme == h.key.hashScheme && req.adapter == h.key.adapter
    ensures var q := Query(Run(ops, cfg).entries, req, now, ttl);
            && (req.blockHashes == [] && req.blockTokenCounts == [] && req.prefixHash == h.key.prefixHash ==>
                  h.replica !in LookupF(q, stats, cfg.ranker))
            && (forall b: nat :: b < |req.blockHashes| && req.blockHashes[b] == h.key.prefixHash ==> RunLen(q, h.replica) <= b)
  {
    hide Run, ServingSet, Reported, RunLen;
    WithdrawnStaysGone(ops, cfg, h, i);
    var q := Query(Run(ops, cfg).entries, req, now, ttl);
    forall b: nat | b < |req.blockHashes| && req.blockHashes[b] == h.key.prefixHash ensures RunLen(q, h.replica) <= b {
      assert Block(req, b, h.replica) == h && !Holds(q, h.replica, b);
      RunLenCharacterized(q, h.replica, b + 1);
    }
  }

  // ---- Round trips ----

  /** Reporting a prefix and looking it up exactly gives back its token count, tier and
      a full hit probability. */
  lemma ReportThenExactLookup(st: State, u: Update, k: nat, now: int, pol: Policies, cfg: Config, req: LookupRequest)
    requires k < |u.prefixes| && u.hashScheme != "" && HasRoom(st, Ingest(u, now, pol), cfg) && TtlFor(cfg, pol, req.tenant) > 0
    requires u.prefixes[k].blockHashes == [] && u.prefixes[k].blockTokenCounts == [] && (u.timestamp == 0 || u.timestamp == now)
    requires req.tenant == u.tenant && req.model == u.model && req.hashScheme == u.hashScheme
    requires req.adapter == (if u.prefixes[k].adapter != "" then u.prefixes[k].adapter else u.adapter)
    requires req.prefixHash == u.prefixes[k].prefixHash && req.blockHashes == [] && req.blockTokenCounts == []
    requires forall j: nat :: k < j < |u.prefixes| ==>
               u.prefixes[j].prefixHash != req.prefixHash && req.prefixHash !in u.prefixes[j].blockHashes
    ensures var after := IngestF(st, u, now, pol, cfg);
            var scores := LookupF(Query(after.entries, req, now, TtlFor(cfg, pol, req.tenant)), after.stats, cfg.ranker);
            && u.replica in scores && scores[u.replica].matched == u.prefixes[k].tokenCount && scores[u.replica].hitProb == 1.0
            && scores[u.replica].tier == (if u.prefixes[k].tier == 0 then 1 else u.prefixes[k].tier)
  {
    hide IngestF, HasRoom, ServingSet, TtlFor, BaseScore, PressureOf, DistinguishingPower;
    var h := Held(PrefixKey(req.tenant, req.model, req.hashScheme, req.adapter, req.prefixHash), u.replica);
    assert Names(u, u.prefixes[k], h.key);
    forall j: nat | k < j < |u.prefixes| ensures !Names(u, u.prefixes[j], h.key) {
    }
    StoredAsReported(st, u, now, pol, cfg, h);
    var after := IngestF(st, u, now, pol, cfg);
    var q := Query(after.entries, req, now, TtlFor(cfg, pol, req.tenant));
    assert ExactHeld(req, u.replica) == h;
    MatchesAreServing(q, u.replica);
  }

  /** Reporting a chain and looking up that chain, or the beginning of it, matches all
      of it, worth the sum of the counts asked with. */
  lemma ReportThenChainLookup(st: State, u: Update, k: nat, now: int, pol: Policies, cfg: Config, req: LookupRequest)
    requires k < |u.prefixes| && u.hashScheme != "" && HasRoom(st, Ingest(u, now, pol), cfg) && TtlFor(cfg, pol, req.tenant) > 0
    requires |u.prefixes[k].blockHashes| == |u.prefixes[k].blockTokenCounts| && (u.timestamp == 0 || u.timestamp == now)
    requires req.tenant == u.tenant && req.model == u.model && req.hashScheme == u.hashScheme
    requires req.adapter == (if u.prefixes[k].adapter != "" then u.prefixes[k].adapter else u.adapter)
    requires 0 < |req.blockHashes| == |req.blockTokenCounts| && req.blockHashes <= u.prefixes[k].blockHashes
    ensures var after := IngestF(st, u, now, pol, cfg);
            var q := Query(after.entries, req, now, TtlFor(cfg, pol, req.tenant));
            var scores := LookupF(q, after.stats, cfg.ranker);
            && RunLen(q, u.replica) == |req.blockHashes|
            && (u.replica in scores <==> RunningSum(req.blockTokenCounts, |req.blockTokenCounts|) > 0)
            && (u.replica in scores ==>
                  && (PlainSum(req.blockTokenCounts, |req.blockTokenCounts|) - scores[u.replica].matched) % 0x1_0000_0000 == 0
                  && scores[u.replica].hitProb == 1.0)
  {
    hide IngestF, HasRoom, ServingSet, TtlFor, BaseScore, PressureOf, DistinguishingPower, RunLen, RunTier, Oldest, RunningSum, AtLeastAsDeep;
    var after := IngestF(st, u, now, pol, cfg);
    var q, n := Query(after.entries, req, now, TtlFor(cfg, pol, req.tenant)), |req.blockHashes|;
    forall i: nat | i < n
      ensures Holds(q, u.replica, i) && q.es[Block(req, i, u.replica)].lastSeen == now
    {
      var h := Block(req, i, u.replica);
      assert NamesBlock(u.prefixes[k], h.key.prefixHash, i) && Names(u, u.prefixes[k], h.key) && Reported(u, h);
      StoredAsReported(st, u, now, pol, cfg, h);
    }
    RunLenCharacterized(q, u.replica, n);
    OldestIsLeast(q, u.replica, n);
    SumIsTotal(req.blockTokenCounts, n);
    MatchesAreServing(q, u.replica);
  }
}
