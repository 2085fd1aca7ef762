/** Reserved tenants are isolated from real workloads. Over whole runs, what the
    index stores for public tenants is exactly what it would store had the
    reserved tenant's writes and removals never happened: no real entry is
    refreshed, evicted or spared because of them (internal/index/eviction.go:133-166,
    internal/index/ingest.go:103-117, internal/server/policy.go:294-305).
 */
module Isolation {
  import opened Ordering
  import opened Tally
  import opened Domain
  import opened Policy
  import opened IndexModel
  import opened Eviction
  import opened Runs

  ghost function Public(es: Entries, reserved: set<string>): Entries {
    map h | h in es && h.key.tenant !in reserved :: es[h]
  }

  ghost function PublicStats(ss: map<StatsKey, StatEntry>, reserved: set<string>): map<StatsKey, StatEntry> {
    map s | s in ss && s.tenant !in reserved :: ss[s]
  }

  ghost function PublicState(st: State, reserved: set<string>): State {
    State(Public(st.entries, reserved), PublicStats(st.stats, reserved))
  }

  // ---- Eviction looks at public entries only ----

  lemma PublicKeys(es: Entries, reserved: set<string>)
    ensures Unreserved(es.Keys, reserved) == Public(es, reserved).Keys == Unreserved(Public(es, reserved).Keys, reserved)
  {}

  lemma CapRefsPublic(es: Entries, pol: Policies, reserved: set<string>)
    ensures CapRefs(es, pol, reserved) == CapRefs(Public(es, reserved), pol, reserved)
  {
    var es' := Public(es, reserved);
    PublicKeys(es, reserved);
    hide Unreserved;
    forall h | h in es' ensures CapRefOf(es, pol, h) == CapRefOf(es', pol, h) {
    }
    forall x | x in CapRefs(es, pol, reserved) ensures x in CapRefs(es', pol, reserved) {
      var h :| h in Unreserved(es.Keys, reserved) && x == CapRefOf(es, pol, h);
      assert x == CapRefOf(es', pol, h);
    }
    forall x | x in CapRefs(es', pol, reserved) ensures x in CapRefs(es, pol, reserved) {
      var h :| h in Unreserved(es'.Keys, reserved) && x == CapRefOf(es', pol, h);
      assert x == CapRefOf(es, pol, h);
    }
  }

  lemma CapPublic(es: Entries, pol: Policies, cfg: Config)
    ensures Public(CapF(es, pol, cfg), cfg.reserved) == CapF(Public(es, cfg.reserved), pol, cfg)
  {
    CapRefsPublic(es, pol, cfg.reserved);
    PublicKeys(es, cfg.reserved);
    hide CapRefs, Unreserved, Lowest, Image;
    assert CapVictims(es, pol, cfg) == CapVictims(Public(es, cfg.reserved), pol, cfg);
    MinusPublic(es, CapVictims(es, pol, cfg), cfg.reserved);
  }

  lemma MinusPublic(es: Entries, gone: set<Held>, reserved: set<string>)
    ensures Public(es - gone, reserved) == Public(es, reserved) - gone
  {}

  lemma AgePublic(es: Entries, reserved: set<string>, key: PrefixKey)
    requires key.tenant !in reserved
    ensures Age(es, key) == Age(Public(es, reserved), key)
  {
    var es' := Public(es, reserved);
    assert LastSeens(es, key) == LastSeens(es', key) by {
      forall t | t in LastSeens(es, key) ensures t in LastSeens(es', key) {
        var h :| h in es && h.key == key && es[h].lastSeen == t;
        assert h in es';
      }
      forall t | t in LastSeens(es', key) ensures t in LastSeens(es, key) {
        var h :| h in es' && h.key == key && es'[h].lastSeen == t;
      }
    }
  }

  lemma TenantKeysPublic(es: Entries, reserved: set<string>, tenant: string)
    requires tenant !in reserved
    ensures TenantKeys(es.Keys, tenant) == TenantKeys(Public(es, reserved).Keys, tenant)
  {
    var es' := Public(es, reserved);
    forall k | k in TenantKeys(es.Keys, tenant) ensures k in TenantKeys(es'.Keys, tenant) {
      var h :| h in es.Keys && h.key == k;
      assert h in es'.Keys;
    }
  }

  lemma QuotaPublic(es: Entries, reserved: set<string>, tenant: string, budget: int)
    requires tenant !in reserved
    ensures Public(QuotaF(es, tenant, budget), reserved) == QuotaF(Public(es, reserved), tenant, budget)
  {
    var es' := Public(es, reserved);
    assert QuotaRefs(es, tenant) == QuotaRefs(es', tenant) by {
      hide Age;
      TenantKeysPublic(es, reserved, tenant);
      forall k | k in TenantKeys(es.Keys, tenant) ensures QuotaRefOf(es, k) == QuotaRefOf(es', k) {
        AgePublic(es, reserved, k);
      }
    }
    TenantKeysPublic(es, reserved, tenant);
    hide QuotaRefs, TenantKeys, Lowest, Image;
    var victims := QuotaVictims(es, tenant, budget);
    assert victims == QuotaVictims(es', tenant, budget);
    assert Public(es - WithKeys(es.Keys, victims), reserved) == es' - WithKeys(es'.Keys, victims);
  }

  // ---- Writes ----

  lemma {:induction false} PutAllPublic(es: Entries, ws: seq<Write>, replica: string, ts: int, reserved: set<string>)
    requires forall i :: 0 <= i < |ws| ==> ws[i].key.tenant !in reserved
    ensures Public(PutAll(es, ws, replica, ts), reserved) == PutAll(Public(es, reserved), ws, replica, ts)
  {
    if ws != [] {
      var w := ws[|ws| - 1];
      PutAllPublic(es, ws[..|ws| - 1], replica, ts, reserved);
      var mid := PutAll(es, ws[..|ws| - 1], replica, ts);
      assert Public(Put(mid, w, replica, ts), reserved) == Put(Public(mid, reserved), w, replica, ts);
    }
  }

  lemma {:induction false} PutAllReserved(es: Entries, ws: seq<Write>, replica: string, ts: int, reserved: set<string>)
    requires forall i :: 0 <= i < |ws| ==> ws[i].key.tenant in reserved
    ensures Public(PutAll(es, ws, replica, ts), reserved) == Public(es, reserved)
  {
    if ws != [] {
      var w := ws[|ws| - 1];
      PutAllReserved(es, ws[..|ws| - 1], replica, ts, reserved);
      var mid := PutAll(es, ws[..|ws| - 1], replica, ts);
      assert Public(Put(mid, w, replica, ts), reserved) == Public(mid, reserved);
    }
  }

  lemma WritesTenant(u: Update, i: nat)
    requires i < |Writes(u)|
    ensures Writes(u)[i].key.tenant == u.tenant
  {
    WritesInScope(u, |u.prefixes|, i);
  }

  // ---- One step ----

  lemma IngestPublic(st: State, u: Update, now: int, pol: Policies, cfg: Config)
    requires u.tenant !in cfg.reserved
    ensures PublicState(IngestF(st, u, now, pol, cfg), cfg.reserved) == IngestF(PublicState(st, cfg.reserved), u, now, pol, cfg)
  {
    hide Public, PutAll, QuotaF, CapF, Writes;
    var ts := TimeOf(u.timestamp, now);
    forall i | 0 <= i < |Writes(u)| ensures Writes(u)[i].key.tenant !in cfg.reserved {
      WritesTenant(u, i);
    }
    PutAllPublic(st.entries, Writes(u), u.replica, ts, cfg.reserved);
    var written := PutAll(st.entries, Writes(u), u.replica, ts);
    var quota := pol.TenantQuota(u.tenant);
    if quota.Some? {
      QuotaPublic(written, cfg.reserved, u.tenant, quota.value);
      CapPublic(QuotaF(written, u.tenant, quota.value), pol, cfg);
    } else {
      CapPublic(written, pol, cfg);
    }
    assert PublicStats(IngestStats(st.stats, u, ts), cfg.reserved) == IngestStats(PublicStats(st.stats, cfg.reserved), u, ts);
  }

  /** No public entry is evicted to make room for a reserved one. */
  lemma IngestReserved(st: State, u: Update, now: int, pol: Policies, cfg: Config)
    requires u.tenant in cfg.reserved && pol.TenantQuota(u.tenant) == None
    requires cfg.maxEntries <= 0 || |Unreserved(st.entries.Keys, cfg.reserved)| <= cfg.maxEntries
    ensures IngestF(st, u, now, pol, cfg).entries == PutAll(st.entries, Writes(u), u.replica, TimeOf(u.timestamp, now))
    ensures PublicState(IngestF(st, u, now, pol, cfg), cfg.reserved) == PublicState(st, cfg.reserved)
  {
    hide Public, PutAll, CapF, Writes;
    var ts := TimeOf(u.timestamp, now);
    forall i | 0 <= i < |Writes(u)| ensures Writes(u)[i].key.tenant in cfg.reserved {
      WritesTenant(u, i);
    }
    PutAllReserved(st.entries, Writes(u), u.replica, ts, cfg.reserved);
    var written := PutAll(st.entries, Writes(u), u.replica, ts);
    PublicKeys(st.entries, cfg.reserved);
    PublicKeys(written, cfg.reserved);
    CapIdle(written, pol, cfg);
    assert PublicStats(IngestStats(st.stats, u, ts), cfg.reserved) == PublicStats(st.stats, cfg.reserved);
  }

  predicate TouchesReserved(op: Op, reserved: set<string>) {
    match op
    case Ingest(u, _, _) => u.tenant in reserved
    case Publish(ev, _) => ev.tenant in reserved
    case _ => false
  }

  lemma EventPublic(st: State, ev: Event, now: int, reserved: set<string>)
    requires ev.tenant !in reserved
    ensures PublicState(EventF(st, ev, now), reserved) == EventF(PublicState(st, reserved), ev, now)
  {
    hide Erases;
    assert PublicStats(EventStats(st.stats, ev, now), reserved) == EventStats(PublicStats(st.stats, reserved), ev, now);
    assert Public(EventF(st, ev, now).entries, reserved) == EventF(PublicState(st, reserved), ev, now).entries;
  }

  lemma SweepPublic(st: State, now: int, pol: Policies, cfg: Config)
    ensures PublicState(SweepF(st, now, pol, cfg), cfg.reserved) == SweepF(PublicState(st, cfg.reserved), now, pol, cfg)
  {
    hide Expired, TtlFor;
  }

  lemma CreditPublic(st: State, extra: map<Held, nat>, reserved: set<string>)
    ensures PublicState(CreditF(st, extra), reserved) == CreditF(PublicState(st, reserved), extra)
  {
    assert Public(CreditF(st, extra).entries, reserved) == CreditF(PublicState(st, reserved), extra).entries;
  }

  lemma PublicStep(st: State, op: Op, cfg: Config)
    requires !TouchesReserved(op, cfg.reserved)
    ensures PublicState(Step(st, op, cfg), cfg.reserved) == Step(PublicState(st, cfg.reserved), op, cfg)
  {
    hide PublicState, IngestF, EventF, SweepF, CreditF;
    match op
    case Ingest(u, now, pol) => IngestPublic(st, u, now, pol, cfg);
    case Publish(ev, now) => EventPublic(st, ev, now, cfg.reserved);
    case Sweep(now, pol) => SweepPublic(st, now, pol, cfg);
    case Credit(extra) => CreditPublic(st, extra, cfg.reserved);
  }

  lemma ReservedStep(st: State, op: Op, cfg: Config)
    requires TouchesReserved(op, cfg.reserved) && cfg.reserved == {PROBE_TENANT}
    requires cfg.maxEntries <= 0 || |Unreserved(st.entries.Keys, cfg.reserved)| <= cfg.maxEntries
    ensures PublicState(Step(st, op, cfg), cfg.reserved) == PublicState(st, cfg.reserved)
  {
    match op
    case Ingest(u, now, pol) => IngestReserved(st, u, now, pol, cfg);
    case Publish(ev, now) =>
      assert Public(EventF(st, ev, now).entries, cfg.reserved) == Public(st.entries, cfg.reserved);
  }

  // ---- Whole runs ----

  function PublicOps(ops: seq<Op>, reserved: set<string>): seq<Op> {
    if ops == [] then []
    else
      var op := ops[|ops| - 1];
      PublicOps(ops[..|ops| - 1], reserved) + if TouchesReserved(op, reserved) then [] else [op]
  }

  /** Over every run, public state is as if the reserved tenant did not exist. */
  lemma {:induction false} RealWorkloadUnaffected(ops: seq<Op>, cfg: Config)
    requires cfg.reserved == {PROBE_TENANT}
    ensures PublicState(Run(ops, cfg), cfg.reserved) == Run(PublicOps(ops, cfg.reserved), cfg)
  {
    hide PublicState, Step;
    if ops == [] {
      assert PublicState(State(map[], map[]), cfg.reserved) == State(map[], map[]) by { EmptyPublic(cfg.reserved); }
    } else {
      var before, op := ops[..|ops| - 1], ops[|ops| - 1];
      RealWorkloadUnaffected(before, cfg);
      var st := Run(before, cfg);
      if TouchesReserved(op, cfg.reserved) {
        if cfg.maxEntries > 0 {
          AlwaysWithinCap(before, cfg);
        }
        ReservedStep(st, op, cfg);
        assert PublicOps(ops, cfg.reserved) == PublicOps(before, cfg.reserved);
      } else {
        PublicStep(st, op, cfg);
        var p := PublicOps(before, cfg.reserved);
        assert (p + [op])[..|p + [op]| - 1] == p;
      }
    }
  }

  lemma EmptyPublic(reserved: set<string>)
    ensures PublicState(State(map[], map[]), reserved) == State(map[], map[])
  {}
}
