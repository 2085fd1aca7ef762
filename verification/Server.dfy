/** The server on one index: public handlers (internal/server/inferencecache_service.go),
    the sweep and the probe (internal/server/probe.go), each cut where the code lets
    go of the index lock. `Serve` runs any schedule of such turns and produces a
    history in the sense of `Histories`, so the theorems there, in `Deliveries` and in
    `ProbeHistories` are about it.
 */
module Server {
  import opened Domain
  import opened Policy
  import opened IndexModel
  import opened Ranking
  import opened Bookkeeping
  import opened CacheIndex
  import opened Lookup
  import opened Routing
  import opened Response
  import opened Probe
  import opened Histories

  /** One increment for every occurrence in the hits. */
  method Flatten(hits: Hits) returns (d: multiset<Pointer>)
    ensures forall p :: d[p] == Uses(hits, hits.Keys, p)
  {
    hide Uses;
    d := multiset{};
    var ids := hits.Keys;
    ghost var done: set<string> := {};
    forall p ensures Uses(hits, done, p) == 0 {
      UsesNone(hits, p);
    }
    while ids != {}
      invariant ids <= hits.Keys && done == hits.Keys - ids
      invariant forall p :: d[p] == Uses(hits, done, p)
      decreases ids
    {
      var id :| id in ids;
      ids := ids - {id};
      d := d + multiset(hits[id]);
      forall p ensures Uses(hits, done + {id}, p) == Uses(hits, done, p) + multiset(hits[id])[p] {
        UsesAdd(hits, done, id, p);
      }
      done := done + {id};
    }
    assert done == hits.Keys;
  }

  lemma InheritsSubset(o: map<Held, Pointer>, o': map<Held, Pointer>, home: seq<Held>)
    requires forall h :: h in o' ==> h in o && o'[h] == o[h]
    ensures Inherits(o, home, o', home)
  {}

  class Server {
    const ix: Index
    const env: Env
    var pending: map<Ticket, Inflight>
    var due: multiset<Pointer>
    var probes: map<ProbeKey, ProbeRun>
    var answers: seq<Answer>

    ghost function Now(): Moment
      reads this, ix
    {
      Moment(ix.Now(), pending, due, probes, answers)
    }

    ghost predicate Valid()
      reads this, ix
    {
      env.cfg == ix.cfg && env.cfg.reserved == {PROBE_TENANT} && WellKept(Now(), env)
    }

    /** A new server reserves the probe tenant. */
    constructor (ttl: int, maxEntries: int, ranker: RankerConfig, chain: Fingerprint, digest: string -> nat, sha: string -> string)
      ensures Valid() && Fresh(Now(), env) && fresh(ix)
      ensures env == Env(Config(if ttl <= 0 then DEFAULT_TTL else ttl, maxEntries, {PROBE_TENANT}, ranker), chain, digest, sha)
    {
      var index := new Index(ttl, maxEntries, [PROBE_TENANT], ranker);
      assert index.cfg.reserved == {PROBE_TENANT};
      assert index.ledger == multiset{} by { NoCredits(index.Now(), index.cfg.reserved); }
      ix := index;
      env := Env(index.cfg, chain, digest, sha);
      pending, due, probes, answers := map[], multiset{}, map[], [];
    }

    // ---- Public handlers and the sweep ----

    /** `ReportCacheState` for one update: the reserved tenant is dropped. */
    method ReportCacheState(u: Update, now: int, pol: Policies)
      requires Valid()
      modifies this, ix
      ensures Valid() && Next(old(Now()), Report(u, now, pol), Now(), env)
    {
      hide Sound, StoredIn, IngestF, Inherits, WellKept;
      ghost var m := Now();
      KeptSound(m, env);
      if u.tenant != PROBE_TENANT {
        ix.Ingest(u, now, pol);
      }
      WellKeptNext(m, Report(u, now, pol), Now(), env);
    }

    /** `PublishEvent`: the reserved tenant is acknowledged and dropped. */
    method PublishEvent(ev: Event, now: int)
      requires Valid()
      modifies this, ix
      ensures Valid() && Next(old(Now()), Notify(ev, now), Now(), env)
    {
      hide Sound, StoredIn, EventF, Inherits, WellKept;
      ghost var m := Now();
      KeptSound(m, env);
      if ev.tenant != PROBE_TENANT {
        ix.ApplyEvent(ev, now);
        InheritsSubset(m.rep.objs, ix.objs, ix.home);
      }
      WellKeptNext(m, Notify(ev, now), Now(), env);
    }

    method Sweep(now: int, pol: Policies)
      requires Valid()
      modifies this, ix
      ensures Valid() && Next(old(Now()), Tick(now, pol), Now(), env)
    {
      hide Sound, StoredIn, SweepF, Inherits, WellKept;
      ghost var m := Now();
      KeptSound(m, env);
      ix.EvictExpired(now, pol);
      InheritsSubset(m.rep.objs, ix.objs, ix.home);
      WellKeptNext(m, Tick(now, pol), Now(), env);
    }

    // ---- Lookups ----

    method StartLookup(t: Ticket, req: RouteRequest, pol: Policies, deadline: Deadline)
      requires Valid()
      modifies this
      ensures Valid() && Next(old(Now()), Arrive(t, req, pol, deadline), Now(), env)
    {
      hide Sound, StoredIn, WellKept, ShortAnswer, ResolveChain;
      ghost var m := Now();
      if t !in pending {
        var short, inp := Admit(req, pol, env.chain, deadline);
        if short.Some? {
          answers := answers + [Replied(t, Reply(short.value, []))];
        } else {
          pending := pending[t := Inflight(req, inp, Matching)];
        }
      }
      WellKeptNext(m, Arrive(t, req, pol, deadline), Now(), env);
    }

    /** One look under the read lock. */
    method ContinueLookup(t: Ticket, now: int, pol: Policies)
      requires Valid()
      modifies this
      ensures Valid() && Next(old(Now()), LookAgain(t, now, pol), Now(), env)
    {
      hide Sound, StoredIn, WellKept, LookStep, TtlFor;
      ghost var m := Now();
      KeptSound(m, env);
      if t in pending && !pending[t].phase.Found? {
        var fl := pending[t];
        var phase := Look(ix, IndexRequest(fl.req, fl.inp), fl.phase, now, pol);
        pending := pending[t := fl.(phase := phase)];
      }
      WellKeptNext(m, LookAgain(t, now, pol), Now(), env);
    }

    /** Floors, affinity, reply; the increments become due. */
    method FinishLookup(t: Ticket, pol: Policies)
      requires Valid()
      modifies this
      ensures Valid() && Next(old(Now()), Deliver(t, pol), Now(), env)
    {
      hide Sound, StoredIn, WellKept, Response.Delivered, Uses, Ids, Coherent, GateHot;
      ghost var m := Now();
      KeptSound(m, env);
      if t in pending && pending[t].phase.Found? {
        var fl := pending[t];
        var result := GateHot(fl.phase.result, pol, fl.req.tenant);
        KeptCoherent(m, env, t);
        GateCoherent(fl.phase.result, pol, fl.req.tenant, |ix.arena|);
        var reply, hits := DecideResponse(ix, fl.req, fl.inp, result, pol, env.digest);
        var more := Flatten(hits);
        pending, due, answers := pending - {t}, due + more, answers + [Replied(t, reply)];
      }
      WellKeptNext(m, Deliver(t, pol), Now(), env);
    }

    /** The deadline passes: an empty answer, and the lookup is forgotten. */
    method AbandonLookup(t: Ticket)
      requires Valid()
      modifies this
      ensures Valid() && Next(old(Now()), Expire(t), Now(), env)
    {
      hide Sound, StoredIn, WellKept;
      ghost var m := Now();
      if t in pending {
        pending, answers := pending - {t}, answers + [Replied(t, Reply(TIMEOUT, []))];
      }
      WellKeptNext(m, Expire(t), Now(), env);
    }

    /** One atomic increment, without the lock. */
    method CreditOne(p: Pointer)
      requires Valid()
      modifies this, ix
      ensures Valid() && Next(old(Now()), Increment(p), Now(), env)
    {
      hide Sound, StoredIn, WellKept;
      ghost var m := Now();
      KeptSound(m, env);
      if p in due && p < |ix.arena| {
        ix.CreditHits([p]);
        due := due - multiset{p};
        assert ix.arena == m.rep.arena[p := Bookkeeping.Credit(m.rep.arena[p], 1)] by { CreditedOne(m.rep.arena, ix.arena, p); }
      }
      WellKeptNext(m, Increment(p), Now(), env);
    }

    // ---- Probes ----

    method BeginProbe(req: ProbeRequest, clock: int, now: int, pol: Policies)
      requires Valid()
      modifies this, ix
      ensures Valid() && Next(old(Now()), Begin(req, clock, now, pol), Now(), env)
    {
      hide Sound, StoredIn, IngestF, Inherits, WellKept, ProbeUpdate;
      ghost var m := Now();
      KeptSound(m, env);
      if KeyOf(req) !in probes {
        ix.Ingest(ProbeUpdate(req, env.sha, clock), now, pol);
        probes := probes[KeyOf(req) := ProbeRun(req, TimeOf(clock, now), Written)];
      }
      WellKeptNext(m, Begin(req, clock, now, pol), Now(), env);
    }

    method CheckProbe(k: ProbeKey, now: int, pol: Policies)
      requires Valid()
      modifies this
      ensures Valid() && Next(old(Now()), Check(k, now, pol), Now(), env)
    {
      hide Sound, StoredIn, WellKept, StageA, StageB;
      ghost var m := Now();
      KeptSound(m, env);
      if k in probes {
        var run := probes[k];
        if run.phase.Written? {
          var landed := CheckLanded(ix, run.req, env.sha, now, pol);
          run := run.(phase := if landed then Landed else Ended(ProbeResult(Failed, Skipped, Skipped)));
        } else if run.phase.Landed? {
          var routed := CheckRouted(ix, run.req, env.sha, now, pol);
          run := run.(phase := Ended(ProbeResult(Ok, if routed then Ok else Failed, Skipped)));
        }
        probes := probes[k := run];
      }
      WellKeptNext(m, Check(k, now, pol), Now(), env);
    }

    method FinishProbe(k: ProbeKey, clock: int, now: int)
      requires Valid()
      modifies this, ix
      ensures Valid() && Next(old(Now()), Finish(k, clock, now), Now(), env)
    {
      hide Sound, StoredIn, EventF, Inherits, WellKept, CleanupEvent;
      ghost var m := Now();
      KeptSound(m, env);
      if k in probes && probes[k].phase.Ended? {
        var run := probes[k];
        ix.ApplyEvent(CleanupEvent(run.req, clock), now);
        InheritsSubset(m.rep.objs, ix.objs, ix.home);
        probes, answers := probes - {k}, answers + [Tested(run.req, run.phase.result)];
      }
      WellKeptNext(m, Finish(k, clock, now), Now(), env);
    }

    // ---- Any schedule ----

    method ServeOne(turn: Turn)
      requires Valid()
      modifies this, ix
      ensures Valid() && Next(old(Now()), turn, Now(), env)
    {
      hide Next, WellKept;
      match turn
      case Report(u, now, pol) => ReportCacheState(u, now, pol);
      case Notify(ev, now) => PublishEvent(ev, now);
      case Tick(now, pol) => Sweep(now, pol);
      case Arrive(t, req, pol, deadline) => StartLookup(t, req, pol, deadline);
      case LookAgain(t, now, pol) => ContinueLookup(t, now, pol);
      case Deliver(t, pol) => FinishLookup(t, pol);
      case Expire(t) => AbandonLookup(t);
      case Increment(p) => CreditOne(p);
      case Begin(req, clock, now, pol) => BeginProbe(req, clock, now, pol);
      case Check(k, now, pol) => CheckProbe(k, now, pol);
      case Finish(k, clock, now) => FinishProbe(k, clock, now);
    }

    /** Serving any schedule of turns from a fresh server is a history of exactly
        those turns. */
    method Serve(turns: seq<Turn>) returns (ghost ms: seq<Moment>)
      requires Valid() && Fresh(Now(), env)
      modifies this, ix
      ensures Valid() && History(ms, turns, env)
      ensures ms[0] == old(Now()) && ms[|turns|] == Now()
    {
      hide Next, WellKept, Fresh;
      ms := [Now()];
      for n := 0 to |turns|
        invariant Valid() && |ms| == n + 1 && ms[0] == old(Now()) && ms[n] == Now()
        invariant forall i :: 0 <= i < n ==> Next(ms[i], turns[i], ms[i + 1], env)
      {
        ServeOne(turns[n]);
        ms := ms + [Now()];
      }
    }
  }

  lemma NoCredits(r: Rep, reserved: set<string>)
    requires Sound(r, reserved) && r.arena == []
    ensures r.ledger == multiset{}
  {}

  lemma CreditedOne(arena: seq<Entry>, arena': seq<Entry>, p: Pointer)
    requires p < |arena| == |arena'|
    requires forall x :: 0 <= x < |arena'| ==> arena'[x] == Bookkeeping.Credit(arena[x], multiset([p])[x])
    ensures arena' == arena[p := Bookkeeping.Credit(arena[p], 1)]
  {}

  lemma KeptCoherent(m: Moment, env: Env, t: Ticket)
    requires WellKept(m, env) && Ready(m, t)
    ensures Coherent(m.pending[t].phase.result, |m.rep.arena|)
  {}
}
