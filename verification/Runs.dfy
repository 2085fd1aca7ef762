/** Whole runs of the index. The package promises that losing soft state "causes
    cache misses, never wrong answers" (internal/index/doc.go:13-15). Here that
    is a theorem about every sequence of reports, events, sweeps and credits: what
    the index still stores is always the last word about it.
 */
module Runs {
  import opened Ordering
  import opened Domain
  import opened Policy
  import opened IndexModel
  import opened Eviction
  import opened LookupModel

  datatype Op =
    | Ingest(u: Update, now: int, pol: Policies)
    | Publish(ev: Event, now: int)
    | Sweep(now: int, pol: Policies)
    | Credit(extra: map<Held, nat>)

  /** Delivered hints raise the frequency counters of the entries they used. */
  ghost function CreditF(st: State, extra: map<Held, nat>): State {
    st.(entries := map h | h in st.entries ::
                     st.entries[h].(hits := st.entries[h].hits + if h in extra then extra[h] else 0))
  }

  ghost function Step(st: State, op: Op, cfg: Config): State {
    match op
    case Ingest(u, now, pol) => IngestF(st, u, now, pol, cfg)
    case Publish(ev, now) => EventF(st, ev, now)
    case Sweep(now, pol) => SweepF(st, now, pol, cfg)
    case Credit(extra) => CreditF(st, extra)
  }

  ghost function Run(ops: seq<Op>, cfg: Config): State {
    if ops == [] then State(map[], map[]) else Step(Run(ops[..|ops| - 1], cfg), ops[|ops| - 1], cfg)
  }

  // ---- The last word about an entry ----

  /** What a report says about one entry. */
  datatype Report = Report(tokens: int32, tier: int, lastSeen: int)

  function ReportOf(e: Entry): Report {
    Report(e.tokens, e.tier, e.lastSeen)
  }

  /** The last write of the sequence to `key`, if any. */
  function LastWrite(ws: seq<Write>, key: PrefixKey): Option<Write> {
    if ws == [] then None
    else if ws[|ws| - 1].key == key then Some(ws[|ws| - 1])
    else LastWrite(ws[..|ws| - 1], key)
  }

  /** What the history last said about `h`: the latest report of it, unless an
      explicit removal came after. Eviction plays no part in this. */
  ghost function LastReport(ops: seq<Op>, h: Held): Option<Report> {
    if ops == [] then None
    else
      var earlier := LastReport(ops[..|ops| - 1], h);
      match ops[|ops| - 1]
      case Ingest(u, now, _) =>
        var w := LastWrite(Writes(u), h.key);
        if u.replica == h.replica && w.Some? then Some(Report(w.value.tokens, w.value.tier, TimeOf(u.timestamp, now)))
        else earlier
      case Publish(ev, _) => if Erases(ev, h) then None else earlier
      case _ => earlier
  }

  lemma {:induction false} PutAllAt(es: Entries, ws: seq<Write>, replica: string, ts: int, h: Held)
    ensures var after, w := PutAll(es, ws, replica, ts), LastWrite(ws, h.key);
            if h.replica == replica && w.Some? then
              h in after && ReportOf(after[h]) == Report(w.value.tokens, w.value.tier, ts)
            else
              (h in after <==> h in es) && (h in es ==> after[h] == es[h])
  {
    if ws != [] {
      PutAllAt(es, ws[..|ws| - 1], replica, ts, h);
    }
  }

  lemma IngestKeepsOnlyWrites(st: State, u: Update, now: int, pol: Policies, cfg: Config, h: Held)
    requires h in IngestF(st, u, now, pol, cfg).entries
    ensures var written := PutAll(st.entries, Writes(u), u.replica, TimeOf(u.timestamp, now));
            h in written && IngestF(st, u, now, pol, cfg).entries[h] == written[h]
  {
    var written := PutAll(st.entries, Writes(u), u.replica, TimeOf(u.timestamp, now));
    FairOnlyRemoves(written, u.tenant, pol);
    CapEffect(Fair(written, u.tenant, pol), pol, cfg);
  }

  /** In every run, whatever is stored is exactly what was last reported about
      it, and was not explicitly removed since. */
  lemma {:induction false} StoredIsLastReport(ops: seq<Op>, cfg: Config, h: Held)
    requires h in Run(ops, cfg).entries
    ensures LastReport(ops, h) == Some(ReportOf(Run(ops, cfg).entries[h]))
  {
    var before, op := ops[..|ops| - 1], ops[|ops| - 1];
    var st := Run(before, cfg);
    match op
    case Ingest(u, now, pol) =>
      IngestKeepsOnlyWrites(st, u, now, pol, cfg, h);
      PutAllAt(st.entries, Writes(u), u.replica, TimeOf(u.timestamp, now), h);
      if h in st.entries {
        StoredIsLastReport(before, cfg, h);
      }
    case _ =>
      StoredIsLastReport(before, cfg, h);
  }

  // ---- The unbounded log ----

  /** The index with no bound and no expiry: last report wins, removals erase. */
  ghost function Log(ops: seq<Op>): Entries {
    if ops == [] then map[]
    else
      var earlier := Log(ops[..|ops| - 1]);
      match ops[|ops| - 1]
      case Ingest(u, now, _) => PutAll(earlier, Writes(u), u.replica, TimeOf(u.timestamp, now))
      case Publish(ev, _) => map h | h in earlier && !Erases(ev, h) :: earlier[h]
      case _ => earlier
  }

  lemma {:induction false} LogIsLastReport(ops: seq<Op>, h: Held)
    ensures LastReport(ops, h) == if h in Log(ops) then Some(ReportOf(Log(ops)[h])) else None
  {
    if ops != [] {
      var before, op := ops[..|ops| - 1], ops[|ops| - 1];
      LogIsLastReport(before, h);
      if op.Ingest? {
        PutAllAt(Log(before), Writes(op.u), op.u.replica, TimeOf(op.u.timestamp, op.now), h);
      }
    }
  }

  /** The bounded index is a sub-map of the log. */
  lemma StoredIsLogged(ops: seq<Op>, cfg: Config, h: Held)
    requires h in Run(ops, cfg).entries
    ensures h in Log(ops) && ReportOf(Log(ops)[h]) == ReportOf(Run(ops, cfg).entries[h])
  {
    StoredIsLastReport(ops, cfg, h);
    LogIsLastReport(ops, h);
  }

  // ---- Hence: misses, never wrong answers ----

  function PlainSum(counts: seq<int32>, n: nat): int
    requires n <= |counts|
  {
    if n == 0 then 0 else PlainSum(counts, n - 1) + counts[n - 1]
  }

  ghost predicate NonNegative(counts: seq<int32>) {
    forall i :: 0 <= i < |counts| ==> counts[i] >= 0
  }

  /** Non-negative counts whose total fits 32 bits never wrap. */
  ghost predicate Fits(counts: seq<int32>) {
    NonNegative(counts) && PlainSum(counts, |counts|) <= 0x7fff_ffff
  }

  lemma {:induction false} SumMonotone(counts: seq<int32>, a: nat, b: nat)
    requires a <= b <= |counts| && NonNegative(counts)
    ensures 0 <= PlainSum(counts, a) <= PlainSum(counts, b)
    decreases b
  {
    if a < b {
      SumMonotone(counts, a, b - 1);
    } else if a > 0 {
      SumMonotone(counts, a - 1, a - 1);
    }
  }

  lemma NoWrap(counts: seq<int32>, n: nat)
    requires n <= |counts| && Fits(counts)
    ensures RunningSum(counts, n) == PlainSum(counts, n)
  {
    SumMonotone(counts, n, |counts|);
    PrefixFits(counts, n);
  }

  ghost predicate SubIndex(small: Entries, big: Entries) {
    forall h :: h in small ==> h in big && ReportOf(big[h]) == ReportOf(small[h])
  }

  /** Once the sum over a chain is positive, it never falls below that again. */
  ghost predicate Rising(counts: seq<int32>) {
    forall m, n :: 0 < m <= n <= |counts| && RunningSum(counts, m) > 0 ==> RunningSum(counts, m) <= RunningSum(counts, n)
  }

  /** Non-negative counts whose total fits 32 bits are an example. */
  lemma FittingCountsRise(counts: seq<int32>)
    requires Fits(counts)
    ensures Rising(counts)
  {
    forall m, n | 0 < m <= n <= |counts| ensures RunningSum(counts, m) <= RunningSum(counts, n) {
      NoWrap(counts, m);
      NoWrap(counts, n);
      SumMonotone(counts, m, n);
    }
  }

  /** Losing entries can only shorten a leading run, and with rising counts it can
      only lower or lose a match. */
  lemma LossOnlyShortens(q: Query, big: Entries, replica: string)
    requires |q.req.blockHashes| == |q.req.blockTokenCounts| && SubIndex(q.es, big)
    ensures RunLen(q, replica) <= RunLen(q.(es := big), replica)
    ensures Rising(q.req.blockTokenCounts) && ChainMatches(q, replica) ==>
              ChainMatches(q.(es := big), replica) && ChainMatched(q, replica) <= ChainMatched(q.(es := big), replica)
  {
    var q' := q.(es := big);
    var n, n' := RunLen(q, replica), RunLen(q', replica);
    RunLenCharacterized(q, replica, n);
    RunLenCharacterized(q', replica, n);
    assert forall i: nat :: Holds(q, replica, i) ==> Holds(q', replica, i);
    RunLenCharacterized(q', replica, n');
  }

  /** The bounded index claims something the log does not: a match that is not one,
      or a better one. */
  ghost predicate Misled(ops: seq<Op>, cfg: Config, req: LookupRequest, now: int, ttl: int, replica: string)
    requires |req.blockHashes| == |req.blockTokenCounts|
  {
    var q, ideal := Query(Run(ops, cfg).entries, req, now, ttl), Query(Log(ops), req, now, ttl);
    ChainMatches(q, replica) && (!ChainMatches(ideal, replica) || ChainMatched(q, replica) > ChainMatched(ideal, replica))
  }

  /** For every run and every chain request with rising counts: each replica a
      lookup returns is one the log would return too, with at least as many matched
      tokens, and every block of the run it is credited with was last reported,
      fresh, by it. */
  lemma NeverAWrongAnswer(ops: seq<Op>, cfg: Config, req: LookupRequest, now: int, ttl: int, replica: string)
    requires |req.blockHashes| == |req.blockTokenCounts|
    requires ChainMatches(Query(Run(ops, cfg).entries, req, now, ttl), replica)
    ensures Rising(req.blockTokenCounts) ==> !Misled(ops, cfg, req, now, ttl, replica)
    ensures var q := Query(Run(ops, cfg).entries, req, now, ttl);
            && RunLen(q, replica) <= |req.blockHashes|
            && (forall i: nat :: i < RunLen(q, replica) ==>
                  && LastReport(ops, Block(req, i, replica)).Some?
                  && now - LastReport(ops, Block(req, i, replica)).value.lastSeen < ttl)
  {
    var q := Query(Run(ops, cfg).entries, req, now, ttl);
    forall h | h in q.es ensures h in Log(ops) && ReportOf(Log(ops)[h]) == ReportOf(q.es[h]) {
      StoredIsLogged(ops, cfg, h);
    }
    LossOnlyShortens(q, Log(ops), replica);
    RunLenCharacterized(q, replica, RunLen(q, replica));
    forall i: nat | i < RunLen(q, replica)
      ensures LastReport(ops, Block(req, i, replica)).Some?
      ensures now - LastReport(ops, Block(req, i, replica)).value.lastSeen < ttl
    {
      assert Holds(q, replica, i);
      StoredIsLastReport(ops, cfg, Block(req, i, replica));
    }
  }

  // ---- The condition on the counts is exact ----

  function Name(i: nat): (s: string)
    ensures |s| == i
  {
    seq(i, _ => 'x')
  }

  /** A request with these counts and distinct block hashes. */
  function Plain(counts: seq<int32>): LookupRequest {
    LookupRequest("m", "t", "s", "", "", seq(|counts|, i requires i >= 0 => Name(i)), counts, 0)
  }

  function PlainKey(i: nat): PrefixKey {
    PrefixKey("t", "m", "s", "", Name(i))
  }

  function Ref(lo: nat, hi: nat): PrefixRef
    requires lo <= hi
  {
    PrefixRef("", 0, seq(hi - lo, i requires i >= 0 => Name(lo + i)), seq(hi - lo, _ => 0), TIER_T1, "")
  }

  /** A report of blocks `lo` up to `hi` by one replica. */
  function Blocks(lo: nat, hi: nat, ts: int): Update
    requires lo <= hi
  {
    Update("r", "m", "t", "s", "", ts, [Ref(lo, hi)], None)
  }

  /** The report writes exactly those blocks. */
  lemma BlocksWritten(lo: nat, hi: nat, ts: int, i: nat)
    requires lo < hi
    ensures LastWrite(Writes(Blocks(lo, hi, ts)), PlainKey(i)).Some? <==> lo <= i < hi
  {
    var u, p := Blocks(lo, hi, ts), Ref(lo, hi);
    assert FirstWrites(u, 1) == FirstWrites(u, 0) + RefWrites(u, p);
    assert Writes(u) == ChainWrites(u, p, hi - lo);
    ChainWritten(lo, hi, ts, hi - lo, i);
  }

  lemma {:induction false} ChainWritten(lo: nat, hi: nat, ts: int, n: nat, i: nat)
    requires lo < hi && n <= hi - lo
    ensures LastWrite(ChainWrites(Blocks(lo, hi, ts), Ref(lo, hi), n), PlainKey(i)).Some? <==> lo <= i < lo + n
  {
    if n > 0 {
      var ws := ChainWrites(Blocks(lo, hi, ts), Ref(lo, hi), n);
      ChainWritten(lo, hi, ts, n - 1, i);
      assert ws[..|ws| - 1] == ChainWrites(Blocks(lo, hi, ts), Ref(lo, hi), n - 1);
      assert ws[|ws| - 1].key == PlainKey(lo + n - 1);
      assert PlainKey(i) == PlainKey(lo + n - 1) ==> |Name(i)| == |Name(lo + n - 1)|;
    }
  }

  const NO_POLICY := Policies(map[], map[])
  const BRIEF := Policies(map["t" := ResolvedPolicy("t", 1, 0, 0, None, None, "", None, None, None)], map[])
  const ROOMY := Config(10, 0, {}, RankerConfig(0.0, 0, 0.0, 0.0, 0))

  /** The last blocks are reported before the first ones, and a sweep under a short
      time to live takes them. */
  function Lossy(m: nat, n: nat): seq<Op>
    requires 0 < m < n
  {
    [Ingest(Blocks(m, n, 1), 1, NO_POLICY), Ingest(Blocks(0, m, 2), 2, NO_POLICY), Sweep(2, BRIEF)]
  }

  lemma IngestUnbounded(st: State, u: Update, now: int)
    ensures IngestF(st, u, now, NO_POLICY, ROOMY).entries == PutAll(st.entries, Writes(u), u.replica, TimeOf(u.timestamp, now))
  {}

  /** What the lossy run and its log hold. */
  lemma LossyHolds(m: nat, n: nat, i: nat)
    requires 0 < m < n
    ensures var h := Held(PlainKey(i), "r");
            && (h in Run(Lossy(m, n), ROOMY).entries <==> i < m)
            && (h in Log(Lossy(m, n)) <==> i < n)
            && (i < m ==> Run(Lossy(m, n), ROOMY).entries[h].lastSeen == 2)
            && (i < n ==> Log(Lossy(m, n))[h].lastSeen >= 1)
  {
    var ops, h := Lossy(m, n), Held(PlainKey(i), "r");
    var w1, w2 := Writes(Blocks(m, n, 1)), Writes(Blocks(0, m, 2));
    var s1 := PutAll(map[], w1, "r", 1);
    var s2 := PutAll(s1, w2, "r", 2);
    assert Run(ops, ROOMY) == SweepF(Run(ops[..2], ROOMY), 2, BRIEF, ROOMY) && Run(ops[..2], ROOMY).entries == s2 && Log(ops) == s2 by {
      LossyStates(m, n);
    }
    BlocksWritten(m, n, 1, i);
    BlocksWritten(0, m, 2, i);
    PutAllAt(map[], w1, "r", 1, h);
    PutAllAt(s1, w2, "r", 2, h);
    assert TtlFor(ROOMY, BRIEF, "t") == 1;
  }

  lemma LossyStates(m: nat, n: nat)
    requires 0 < m < n
    ensures var ops := Lossy(m, n);
            var s2 := PutAll(PutAll(map[], Writes(Blocks(m, n, 1)), "r", 1), Writes(Blocks(0, m, 2)), "r", 2);
            && Run(ops, ROOMY) == SweepF(Run(ops[..2], ROOMY), 2, BRIEF, ROOMY)
            && Run(ops[..2], ROOMY).entries == s2 && Log(ops) == s2
  {
    hide Writes, PutAll, IngestF, SweepF;
    var ops := Lossy(m, n);
    assert ops[..2][..1] == [ops[0]] && [ops[0]][..0] == [] && ops[..3] == ops;
    assert Run([ops[0]], ROOMY) == IngestF(State(map[], map[]), Blocks(m, n, 1), 1, NO_POLICY, ROOMY);
    IngestUnbounded(State(map[], map[]), Blocks(m, n, 1), 1);
    IngestUnbounded(Run([ops[0]], ROOMY), Blocks(0, m, 2), 2);
    assert Log([ops[0]]) == PutAll(map[], Writes(Blocks(m, n, 1)), "r", 1);
    assert Log(ops[..2]) == PutAll(Log([ops[0]]), Writes(Blocks(0, m, 2)), "r", 2);
    assert Log(ops) == Log(ops[..2]);
  }

  lemma HeldRun(es: Entries, counts: seq<int32>, n: nat)
    requires n <= |counts|
    requires forall i: nat :: i < |counts| ==> (Held(PlainKey(i), "r") in es <==> i < n)
    requires forall i: nat :: i < n ==> Held(PlainKey(i), "r") in es && es[Held(PlainKey(i), "r")].lastSeen >= 1
    ensures RunLen(Query(es, Plain(counts), 2, 10), "r") == n
  {
    var q := Query(es, Plain(counts), 2, 10);
    forall i: nat | i < |counts| ensures Holds(q, "r", i) <==> i < n {
      assert Block(q.req, i, "r") == Held(PlainKey(i), "r");
    }
    RunLenCharacterized(q, "r", n);
  }

  /** Whenever the counts do not rise, some run is misled. */
  lemma LossMisleads(counts: seq<int32>)
    requires !Rising(counts)
    ensures exists ops: seq<Op>, cfg: Config, now: int, ttl: int, r: string :: Misled(ops, cfg, Plain(counts), now, ttl, r)
  {
    hide RunningSum, Run, Log;
    var m, n :| 0 < m <= n <= |counts| && RunningSum(counts, m) > 0 && RunningSum(counts, m) > RunningSum(counts, n);
    var ops := Lossy(m, n);
    forall i: nat | i < |counts|
      ensures var h := Held(PlainKey(i), "r");
              && (h in Run(ops, ROOMY).entries <==> i < m) && (h in Log(ops) <==> i < n)
              && (i < m ==> Run(ops, ROOMY).entries[h].lastSeen == 2) && (i < n ==> Log(ops)[h].lastSeen >= 1)
    {
      LossyHolds(m, n, i);
    }
    HeldRun(Run(ops, ROOMY).entries, counts, m);
    HeldRun(Log(ops), counts, n);
    assert Misled(ops, ROOMY, Plain(counts), 2, 10, "r");
  }

  /** So lookups with these counts are safe over every run iff the counts rise. */
  lemma SafeIffRising(counts: seq<int32>)
    ensures Rising(counts) <==>
            forall ops: seq<Op>, cfg: Config, req: LookupRequest, now: int, ttl: int, r: string
              | req.blockTokenCounts == counts && |req.blockHashes| == |counts| :: !Misled(ops, cfg, req, now, ttl, r)
  {
    hide Rising, Misled;
    if Rising(counts) {
      forall ops: seq<Op>, cfg: Config, req: LookupRequest, now: int, ttl: int, r: string
        | req.blockTokenCounts == counts && |req.blockHashes| == |counts|
        ensures !Misled(ops, cfg, req, now, ttl, r)
      {
        NeverMisled(ops, cfg, req, now, ttl, r);
      }
    } else {
      LossMisleads(counts);
      var ops: seq<Op>, cfg: Config, now: int, ttl: int, r: string :| Misled(ops, cfg, Plain(counts), now, ttl, r);
      assert Plain(counts).blockTokenCounts == counts;
    }
  }

  lemma NeverMisled(ops: seq<Op>, cfg: Config, req: LookupRequest, now: int, ttl: int, replica: string)
    requires |req.blockHashes| == |req.blockTokenCounts| && Rising(req.blockTokenCounts)
    ensures !Misled(ops, cfg, req, now, ttl, replica)
  {
    if ChainMatches(Query(Run(ops, cfg).entries, req, now, ttl), replica) {
      NeverAWrongAnswer(ops, cfg, req, now, ttl, replica);
    }
  }

  lemma {:induction false} PrefixFits(counts: seq<int32>, n: nat)
    requires n <= |counts| && NonNegative(counts) && PlainSum(counts, n) <= 0x7fff_ffff
    ensures RunningSum(counts, n) == PlainSum(counts, n)
  {
    SumMonotone(counts, 0, n);
    if n > 0 {
      SumMonotone(counts, n - 1, n);
      PrefixFits(counts, n - 1);
    }
  }

  /** The same for an exact match: the replica's last word about the prefix is a
      fresh report of exactly the tokens and tier the hint carries. */
  lemma NeverAWrongExactAnswer(ops: seq<Op>, cfg: Config, req: LookupRequest, now: int, ttl: int, replica: string)
    requires ExactMatches(Query(Run(ops, cfg).entries, req, now, ttl), replica)
    ensures var e := Run(ops, cfg).entries[ExactHeld(req, replica)];
            && LastReport(ops, ExactHeld(req, replica)) == Some(ReportOf(e))
            && now - e.lastSeen < ttl
  {
    StoredIsLastReport(ops, cfg, ExactHeld(req, replica));
  }

  // ---- Bounds hold at every moment, not only after an ingest ----

  lemma FewerUnreserved(small: Entries, big: Entries, reserved: set<string>)
    requires small.Keys <= big.Keys
    ensures |Unreserved(small.Keys, reserved)| <= |Unreserved(big.Keys, reserved)|
  {
    SubsetCard(Unreserved(small.Keys, reserved), Unreserved(big.Keys, reserved));
  }

  /** Every reachable state is within the cap. */
  lemma {:induction false} AlwaysWithinCap(ops: seq<Op>, cfg: Config)
    requires cfg.maxEntries > 0
    ensures |Unreserved(Run(ops, cfg).entries.Keys, cfg.reserved)| <= cfg.maxEntries
  {
    if ops == [] {
      assert Unreserved(Run(ops, cfg).entries.Keys, cfg.reserved) == {};
    } else {
      var before, op := ops[..|ops| - 1], ops[|ops| - 1];
      var st := Run(before, cfg);
      AlwaysWithinCap(before, cfg);
      if op.Ingest? {
        IngestWithinBounds(st, op.u, op.now, op.pol, cfg);
      } else {
        FewerUnreserved(Step(st, op, cfg).entries, st.entries, cfg.reserved);
      }
    }
  }

  /** While a tenant's budget is fixed, the tenant stays within it from its first
      report on, whoever else reports in between. */
  lemma {:induction false} StaysWithinBudget(st: State, ops: seq<Op>, cfg: Config, tenant: string, budget: nat)
    requires |TenantKeys(st.entries.Keys, tenant)| <= budget
    requires forall i :: 0 <= i < |ops| && ops[i].Ingest? && ops[i].u.tenant == tenant ==>
               ops[i].pol.TenantQuota(tenant) == Some(budget)
    ensures |TenantKeys(Continue(st, ops, cfg).entries.Keys, tenant)| <= budget
  {
    if ops != [] {
      var before, op := ops[..|ops| - 1], ops[|ops| - 1];
      StaysWithinBudget(st, before, cfg, tenant, budget);
      var mid := Continue(st, before, cfg);
      if op.Ingest? && op.u.tenant == tenant {
        IngestWithinBounds(mid, op.u, op.now, op.pol, cfg);
      } else {
        OthersAddNoKeys(mid, op, cfg, tenant);
        SubsetCard(TenantKeys(Step(mid, op, cfg).entries.Keys, tenant), TenantKeys(mid.entries.Keys, tenant));
      }
    }
  }

  /** The state some operations later. */
  ghost function Continue(st: State, ops: seq<Op>, cfg: Config): State {
    if ops == [] then st else Step(Continue(st, ops[..|ops| - 1], cfg), ops[|ops| - 1], cfg)
  }

  lemma OthersAddNoKeys(st: State, op: Op, cfg: Config, tenant: string)
    requires op.Ingest? ==> op.u.tenant != tenant
    ensures TenantKeys(Step(st, op, cfg).entries.Keys, tenant) <= TenantKeys(st.entries.Keys, tenant)
  {
    var after := Step(st, op, cfg).entries;
    forall h | h in after && h.key.tenant == tenant ensures h in st.entries {
      if op.Ingest? {
        IngestKeepsOnlyWrites(st, op.u, op.now, op.pol, cfg, h);
        forall i | 0 <= i < |Writes(op.u)| ensures Writes(op.u)[i].key != h.key {
          WritesInScope(op.u, |op.u.prefixes|, i);
        }
        PutAllElsewhere(st.entries, Writes(op.u), op.u.replica, TimeOf(op.u.timestamp, op.now), h);
      }
    }
  }
}
