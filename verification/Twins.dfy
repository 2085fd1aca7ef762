/** Probes do not interfere (internal/server/probe.go:276-289). Two histories of the same
    public turns, one with probe runs among them and one without any, agree at every
    moment on public entries, counters and stats, on the lookups under way and on every
    reply, save the replies to lookups whose miss was diagnosed while all that was
    stored was a probe's.
 */
module Twins {
  import opened Domain
  import opened Policy
  import opened IndexModel
  import opened LookupModel
  import opened Ranking
  import opened Isolation
  import opened Bookkeeping
  import opened Lookup
  import opened Routing
  import opened Response
  import opened Histories
  import opened Deliveries
  import opened Visibility
  import opened Noninterference

  // ---- Entries under two sets of names ----

  /** Which entry of the history with probes is which of the one without. */
  type Renaming = map<Pointer, Pointer>

  ghost function Pairing(r: Rep, r': Rep): Renaming {
    map p | 0 <= p < |r.home| && r.home[p] in r.objs && r.objs[r.home[p]] == p && r.home[p] in r'.objs :: r'.objs[r.home[p]]
  }

  ghost predicate OneToOne(rho: Renaming) {
    forall p, q :: p in rho && q in rho && rho[p] == rho[q] ==> p == q
  }

  /** Some entry is called `x`. */
  ghost predicate IsName(rho: Renaming, x: Pointer) {
    exists p :: p in rho && rho[p] == x
  }

  /** The second index stores what the first does for public tenants, by the names of
      the renaming, and no two entries get one name. */
  ghost predicate Named(r: Rep, r': Rep, rho: Renaming, reserved: set<string>) {
    && (forall h :: h in r'.objs <==> h in r.objs && h.key.tenant !in reserved)
    && (forall h :: h in r'.objs ==> r.objs[h] in rho && rho[r.objs[h]] == r'.objs[h])
    && (forall p :: p in rho ==> p < |r.home| && r.home[p].key.tenant !in reserved && rho[p] < |r'.home|)
    && OneToOne(rho)
  }

  ghost predicate Tidy(r: Rep) {
    forall h :: h in r.objs ==> r.objs[h] < |r.home| && r.home[r.objs[h]] == h
  }

  lemma SoundIsTidy(r: Rep, reserved: set<string>)
    requires Sound(r, reserved)
    ensures Tidy(r) && EntriesOf(r).Keys == r.objs.Keys
  {}

  lemma PairingHas(s: Rep, s': Rep, h: Held)
    requires Tidy(s) && h in s.objs && h in s'.objs
    ensures s.objs[h] in Pairing(s, s') && Pairing(s, s')[s.objs[h]] == s'.objs[h]
  {}

  lemma PairingOf(s: Rep, s': Rep, p: Pointer) returns (h: Held)
    requires p in Pairing(s, s')
    ensures p < |s.home| && h in s.objs && s.objs[h] == p && h in s'.objs && s'.objs[h] == Pairing(s, s')[p]
  {
    h := s.home[p];
  }

  /** A stored entry keeps its name if it had one and gets a new one otherwise. */
  lemma NameAt(r: Rep, r': Rep, rho: Renaming, s: Rep, s': Rep, reserved: set<string>, p: Pointer)
    requires Named(r, r', rho, reserved) && p in Pairing(s, s') && Tidy(s) && Tidy(s') && forall h :: h in s'.objs ==> h.key.tenant !in reserved
    requires Inherits(r.objs, r.home, s.objs, s.home) && Inherits(r'.objs, r'.home, s'.objs, s'.home)
    ensures Pairing(s, s')[p] < |s'.home| && p < |s.home| && s.home[p].key.tenant !in reserved
    ensures if p in rho then Pairing(s, s')[p] == rho[p] else Pairing(s, s')[p] >= |r'.home|
  {
    hide Pairing;
    var h := PairingOf(s, s', p);
  }

  lemma NamesApart(s: Rep, s': Rep, p: Pointer, q: Pointer)
    requires Tidy(s') && p in Pairing(s, s') && q in Pairing(s, s') && Pairing(s, s')[p] == Pairing(s, s')[q]
    ensures p == q
  {
    hide Pairing;
    var h := PairingOf(s, s', p);
    var k := PairingOf(s, s', q);
    assert s'.home[s'.objs[h]] == h && s'.home[s'.objs[k]] == k;
  }

  lemma NamedAt(r: Rep, r': Rep, rho: Renaming, reserved: set<string>, h: Held)
    requires Named(r, r', rho, reserved) && h in r'.objs
    ensures h in r.objs && r.objs[h] in rho && rho[r.objs[h]] == r'.objs[h]
  {}

  /** After the pairing too, an entry that had a name keeps it, and others are new. */
  lemma NameLater(r: Rep, r': Rep, rho: Renaming, s: Rep, s': Rep, reserved: set<string>, p: Pointer)
    requires Named(r, r', rho, reserved) && Tidy(s) && Tidy(s') && forall h :: h in s'.objs ==> h.key.tenant !in reserved
    requires Inherits(r.objs, r.home, s.objs, s.home) && Inherits(r'.objs, r'.home, s'.objs, s'.home)
    requires p in rho + Pairing(s, s')
    ensures var rho' := rho + Pairing(s, s');
            && p < |s.home| && s.home[p].key.tenant !in reserved && rho'[p] < |s'.home|
            && if p in rho then rho'[p] == rho[p] < |r'.home| else p in Pairing(s, s') && rho'[p] == Pairing(s, s')[p] >= |r'.home|
  {
    hide Pairing, OneToOne;
    if p in Pairing(s, s') {
      NameAt(r, r', rho, s, s', reserved, p);
    }
  }

  lemma NamesStayApart(r: Rep, r': Rep, rho: Renaming, s: Rep, s': Rep, reserved: set<string>, p: Pointer, q: Pointer)
    requires Named(r, r', rho, reserved) && Tidy(s) && Tidy(s') && forall h :: h in s'.objs ==> h.key.tenant !in reserved
    requires Inherits(r.objs, r.home, s.objs, s.home) && Inherits(r'.objs, r'.home, s'.objs, s'.home)
    requires var rho' := rho + Pairing(s, s'); p in rho' && q in rho' && rho'[p] == rho'[q]
    ensures p == q
  {
    hide Pairing, Tidy, Inherits;
    NameLater(r, r', rho, s, s', reserved, p);
    NameLater(r, r', rho, s, s', reserved, q);
    if p !in rho && q !in rho {
      NamesApart(s, s', p, q);
    }
  }

  /** Names are kept, and new entries get new ones. */
  lemma NamedNext(r: Rep, r': Rep, rho: Renaming, s: Rep, s': Rep, reserved: set<string>)
    requires Named(r, r', rho, reserved) && Tidy(s) && Tidy(s')
    requires Inherits(r.objs, r.home, s.objs, s.home) && Inherits(r'.objs, r'.home, s'.objs, s'.home)
    requires forall h :: h in s'.objs <==> h in s.objs && h.key.tenant !in reserved
    ensures Named(s, s', rho + Pairing(s, s'), reserved)
    ensures forall p :: p in rho ==> (rho + Pairing(s, s'))[p] == rho[p]
  {
    var rho' := rho + Pairing(s, s');
    assert OneToOne(rho') by {
      hide Pairing, Tidy, Inherits, Named;
      forall p, q | p in rho' && q in rho' && rho'[p] == rho'[q] ensures p == q {
        NamesStayApart(r, r', rho, s, s', reserved, p, q);
      }
    }
    hide Pairing, Tidy, Inherits, OneToOne;
    forall h | h in s'.objs ensures s.objs[h] in rho' && rho'[s.objs[h]] == s'.objs[h] {
      PairingHas(s, s', h);
    }
    forall p | p in rho'
      ensures p < |s.home| && s.home[p].key.tenant !in reserved && rho'[p] < |s'.home|
      ensures p in rho ==> rho'[p] == rho[p]
    {
      NameLater(r, r', rho, s, s', reserved, p);
    }
  }

  // ---- Lookups and increments under two sets of names ----

  ghost predicate SameHits(hits: Hits, hits': Hits, rho: Renaming) {
    && hits'.Keys == hits.Keys
    && forall r :: r in hits ==>
         && |hits'[r]| == |hits[r]|
         && forall i :: 0 <= i < |hits[r]| ==> hits[r][i] in rho && hits'[r][i] == rho[hits[r][i]]
  }

  /** A lookup is as far in both histories. One gone astray was told UNKNOWN_TENANT
      where the other was told nothing. */
  ghost predicate SamePhase(ph: Phase, ph': Phase, rho: Renaming, astray: bool) {
    if astray then ph == Found(LookupResult([], UnknownTenant, map[])) && ph' == Found(NO_MATCH)
    else if ph.Found? then
      && ph'.Found? && ph'.result.scores == ph.result.scores && ph'.result.strategy == ph.result.strategy
      && SameHits(ph.result.hits, ph'.result.hits, rho)
    else ph' == ph
  }

  ghost predicate SameFlight(fl: Inflight, fl': Inflight, rho: Renaming, astray: bool) {
    fl'.req == fl.req && fl'.inp == fl.inp && SamePhase(fl.phase, fl'.phase, rho, astray)
  }

  ghost predicate SameDue(due: multiset<Pointer>, due': multiset<Pointer>, rho: Renaming) {
    && (forall p :: p in due ==> p in rho)
    && (forall p :: p in rho ==> due'[rho[p]] == due[p])
    && (forall x :: x in due' ==> IsName(rho, x))
  }

  ghost predicate Kindred(m: Moment, m': Moment, rho: Renaming, astray: set<Ticket>) {
    && m'.pending.Keys == m.pending.Keys && astray <= m.pending.Keys && m'.probes == map[]
    && (forall t :: t in m.pending ==> SameFlight(m.pending[t], m'.pending[t], rho, t in astray))
    && SameDue(m.due, m'.due, rho)
  }

  ghost predicate Extends(rho: Renaming, rho': Renaming) {
    OneToOne(rho') && forall p :: p in rho ==> p in rho' && rho'[p] == rho[p]
  }

  lemma DueGrows(due: multiset<Pointer>, due': multiset<Pointer>, rho: Renaming, rho': Renaming)
    requires SameDue(due, due', rho) && Extends(rho, rho')
    ensures SameDue(due, due', rho')
  {
    forall p | p in rho' ensures due'[rho'[p]] == due[p] {
      assert p !in rho ==> p !in due && rho'[p] !in due';
    }
  }

  lemma PhaseGrows(ph: Phase, ph': Phase, rho: Renaming, rho': Renaming, astray: bool)
    requires SamePhase(ph, ph', rho, astray) && Extends(rho, rho')
    ensures SamePhase(ph, ph', rho', astray)
  {}

  lemma KindredGrows(m: Moment, m': Moment, rho: Renaming, rho': Renaming, astray: set<Ticket>)
    requires Kindred(m, m', rho, astray) && Extends(rho, rho')
    ensures Kindred(m, m', rho', astray)
  {
    hide SamePhase, SameDue, Extends;
    DueGrows(m.due, m'.due, rho, rho');
    forall t | t in m.pending ensures SameFlight(m.pending[t], m'.pending[t], rho', t in astray) {
      PhaseGrows(m.pending[t].phase, m'.pending[t].phase, rho, rho', t in astray);
    }
  }

  // ---- The quiet history ----

  /** A turn that does nothing where no probe runs. */
  const IDLE := Finish(ProbeKey("", ""), 0, 0)

  /** The same turn without probes: public turns stay, increments go by the other
      name, probe turns do nothing. */
  ghost function Quiet(turn: Turn, rho: Renaming): Turn {
    match turn
    case Begin(_, _, _, _) => IDLE
    case Check(_, _, _) => IDLE
    case Finish(_, _, _) => IDLE
    case Increment(p) => if p in rho then Increment(rho[p]) else IDLE
    case _ => turn
  }

  ghost function Names(ms: seq<Moment>, ms': seq<Moment>, n: nat): Renaming
    requires n < |ms| && n < |ms'|
  {
    (if n == 0 then map[] else Names(ms, ms', n - 1)) + Pairing(ms[n].rep, ms'[n].rep)
  }

  ghost predicate AreTwins(ms: seq<Moment>, turns: seq<Turn>, ms': seq<Moment>, turns': seq<Turn>, env: Env) {
    && History(ms, turns, env) && History(ms', turns', env) && |turns'| == |turns|
    && forall i :: 0 <= i < |turns| ==> turns'[i] == Quiet(turns[i], Names(ms, ms', i))
  }

  ghost function AstrayNext(m: Moment, turn: Turn, astray: set<Ticket>, env: Env): set<Ticket> {
    match turn
    case LookAgain(t, _, _) => if Blinded(m, turn, env) then astray + {t} else astray
    case Deliver(t, _) => if Ready(m, t) then astray - {t} else astray
    case Expire(t) => astray - {t}
    case _ => astray
  }

  /** The lookups under way whose miss was diagnosed while all that was stored was a
      probe's. */
  ghost function Astray(ms: seq<Moment>, turns: seq<Turn>, env: Env, n: nat): set<Ticket>
    requires n <= |turns| < |ms|
  {
    if n == 0 then {} else AstrayNext(ms[n - 1], turns[n - 1], Astray(ms, turns, env, n - 1), env)
  }

  // ---- Looks ----

  lemma RunNamed(q: Query, r: Rep, r': Rep, rho: Renaming, reserved: set<string>, id: string)
    requires Named(r, r', rho, reserved) && q.es.Keys == r'.objs.Keys
    ensures RunLen(q, id) <= |q.req.blockHashes|
    ensures forall i :: 0 <= i < RunLen(q, id) ==>
              var p := RunPointers(r.objs, q.req, id, RunLen(q, id))[i];
              p in rho && RunPointers(r'.objs, q.req, id, RunLen(q, id))[i] == rho[p]
  {
    hide RunLen, FreshnessAt;
    var n := RunLen(q, id);
    RunLenCharacterized(q, id, n);
    forall i | 0 <= i < n
      ensures var p := RunPointers(r.objs, q.req, id, n)[i];
              p in rho && RunPointers(r'.objs, q.req, id, n)[i] == rho[p]
    {
      assert Holds(q, id, i) && Block(q.req, i, id) in r'.objs;
    }
  }

  lemma ExactNamed(q: Query, r: Rep, r': Rep, rho: Renaming, reserved: set<string>, lfu: bool)
    requires Named(r, r', rho, reserved) && q.es.Keys == r'.objs.Keys
    ensures SameHits(ExactHits(q, r.objs, lfu), ExactHits(q, r'.objs, lfu), rho)
  {
    hide ServingSet, FreshnessAt, Named;
    forall id | id in ExactHits(q, r.objs, lfu)
      ensures var h := ExactHeld(q.req, id); h in r'.objs && h in r.objs && r.objs[h] in rho && rho[r.objs[h]] == r'.objs[h]
    {
      NamedAt(r, r', rho, reserved, ExactHeld(q.req, id));
    }
  }

  lemma ChainNamed(q: Query, r: Rep, r': Rep, rho: Renaming, reserved: set<string>, lfu: bool)
    requires Named(r, r', rho, reserved) && q.es.Keys == r'.objs.Keys && |q.req.blockHashes| == |q.req.blockTokenCounts|
    ensures SameHits(ChainHits(q, r.objs, lfu), ChainHits(q, r'.objs, lfu), rho)
  {
    hide ServingSet, RunPointers, ChainMatches, RunLen, Named;
    forall id
      ensures RunLen(q, id) <= |q.req.blockHashes|
      ensures forall i :: 0 <= i < RunLen(q, id) ==>
                var p := RunPointers(r.objs, q.req, id, RunLen(q, id))[i];
                p in rho && RunPointers(r'.objs, q.req, id, RunLen(q, id))[i] == rho[p]
    {
      RunNamed(q, r, r', rho, reserved, id);
    }
  }

  /** On one and the same public state the hits differ in names only. */
  lemma HitsNamed(q: Query, r: Rep, r': Rep, rho: Renaming, reserved: set<string>, lfu: bool)
    requires Named(r, r', rho, reserved) && q.es.Keys == r'.objs.Keys
    ensures SameHits(HitsF(q, r.objs, lfu), HitsF(q, r'.objs, lfu), rho)
  {
    hide Named, ChainHits, ExactHits;
    if ChainBearing(q.req) && |q.req.blockHashes| == |q.req.blockTokenCounts| {
      ChainNamed(q, r, r', rho, reserved, lfu);
    } else if !ChainBearing(q.req) {
      ExactNamed(q, r, r', rho, reserved, lfu);
    }
  }

  /** Two looks at one public state find the same. */
  lemma LooksAlike(phase: Phase, q: Query, stats: map<StatsKey, StatEntry>, ranker: RankerConfig, r: Rep, r': Rep, rho: Renaming,
                   reserved: set<string>, lfu: bool, next: Phase, next': Phase)
    requires Named(r, r', rho, reserved) && q.es.Keys == r'.objs.Keys && !phase.Found?
    requires LookStep(phase, q, stats, ranker, r.objs, lfu, next) && LookStep(phase, q, stats, ranker, r'.objs, lfu, next')
    ensures SamePhase(next, next', rho, false)
  {
    hide Named, LookupF, HotF, HitsF, MissF, Lists, BestFirst;
    HitsNamed(q, r, r', rho, reserved, lfu);
    if phase.Matching? && next.Found? && next.result.strategy.PrefixMatch? {
      RankedListUnique(next.result.scores, next'.result.scores, LookupF(q, stats, ranker));
    }
    if phase.Cooling? && next.Found? {
      RankedListUnique(next.result.scores, next'.result.scores, HotF(q, stats, ranker));
    }
  }

  // ---- Deliveries ----

  lemma {:induction false} CountNamed(s: seq<Pointer>, s': seq<Pointer>, rho: Renaming, p: Pointer)
    requires OneToOne(rho) && p in rho && |s'| == |s| && forall i :: 0 <= i < |s| ==> s[i] in rho && s'[i] == rho[s[i]]
    ensures multiset(s')[rho[p]] == multiset(s)[p]
  {
    if s != [] {
      var n := |s| - 1;
      CountNamed(s[..n], s'[..n], rho, p);
      assert s == s[..n] + [s[n]] && s' == s'[..n] + [s'[n]];
    }
  }

  lemma UsesNamed(hits: Hits, hits': Hits, rho: Renaming, ids: set<string>, p: Pointer)
    requires SameHits(hits, hits', rho) && OneToOne(rho) && p in rho
    ensures Uses(hits', ids, rho[p]) == Uses(hits, ids, p)
  {
    forall r | r in hits ensures multiset(hits'[r])[rho[p]] == multiset(hits[r])[p] {
      CountNamed(hits[r], hits'[r], rho, p);
    }
    assert Marks(hits', ids, rho[p]) == Marks(hits, ids, p);
  }

  /** What is used has a name, and under the other names only what was named. */
  lemma UsesOnlyNamed(hits: Hits, hits': Hits, rho: Renaming, ids: set<string>)
    requires SameHits(hits, hits', rho)
    ensures forall p :: p !in rho ==> Uses(hits, ids, p) == 0
    ensures forall x :: Uses(hits', ids, x) != 0 ==> IsName(rho, x)
  {
    forall p | p !in rho ensures Uses(hits, ids, p) == 0 {
      forall r | r in hits ensures multiset(hits[r])[p] == 0 { assert p !in hits[r]; }
      TotalZero(Marks(hits, ids, p));
    }
    forall x | !IsName(rho, x) ensures Uses(hits', ids, x) == 0 {
      forall r | r in hits' ensures multiset(hits'[r])[x] == 0 { assert x !in hits'[r]; }
      TotalZero(Marks(hits', ids, x));
    }
  }

  /** One result on one public state has one reply. */
  lemma SameReply(reply: Reply, reply': Reply, result: LookupResult, result': LookupResult, req: RouteRequest, inp: Inputs,
                  pol: Policies, es: Entries, digest: string -> nat)
    requires Response.Delivered(reply, result, req, inp, pol, es, digest) && Response.Delivered(reply', result', req, inp, pol, es, digest)
    requires result'.scores == result.scores && result'.strategy == result.strategy
    ensures reply' == reply
  {
    hide Serving, IsPick, Kept, AffinityApplies, ClearsPrefixFloor, SeedOf;
    if reply.reason == AFFINITY_HINT && reply'.reason == AFFINITY_HINT && |reply.scores| == 1 && |reply'.scores| == 1 {
      var serving := Serving(es.Keys, ScopeKey(req.tenant, req.model, req.hashScheme));
      if IsPick(serving, digest(SeedOf(inp)), reply.scores[0].replica) && IsPick(serving, digest(SeedOf(inp)), reply'.scores[0].replica) {
        AffinityUnique(serving, digest(SeedOf(inp)), reply.scores[0].replica, reply'.scores[0].replica);
      }
    }
  }

  // ---- One turn of both histories ----

  /** The second index holds what the first does for public tenants. */
  ghost predicate SamePublic(m: Moment, m': Moment, reserved: set<string>) {
    StateOf(m'.rep) == PublicState(StateOf(m.rep), reserved)
  }

  ghost predicate IsPublic(m: Moment, env: Env) {
    forall t :: t in m.pending ==> m.pending[t].req.tenant !in env.cfg.reserved
  }

  lemma LookTwin(m: Moment, m': Moment, turn: Turn, n: Moment, n': Moment, rho: Renaming, astray: set<Ticket>, env: Env)
    requires Kindred(m, m', rho, astray) && SamePublic(m, m', env.cfg.reserved) && IsPublic(m, env)
    requires Named(m.rep, m'.rep, rho, env.cfg.reserved) && EntriesOf(m'.rep).Keys == m'.rep.objs.Keys
    requires turn.LookAgain? && UnderWay(m, turn.ticket) && LookNext(m, turn.ticket, turn.now, turn.pol, n, env)
    requires UnderWay(m', turn.ticket) && LookNext(m', turn.ticket, turn.now, turn.pol, n', env)
    ensures Kindred(n, n', rho, AstrayNext(m, turn, astray, env))
  {
    hide Named, LookStep, EntriesOf, Public, PublicStats, OnlyReserved, TtlFor, SameHits, SameDue;
    var t, reserved := turn.ticket, env.cfg.reserved;
    var fl, fl', lfu := m.pending[t], m'.pending[t], turn.pol.IsLFU(m.pending[t].req.tenant);
    var q, q' := Ask(m.rep, fl, turn.now, turn.pol, env.cfg), Ask(m'.rep, fl', turn.now, turn.pol, env.cfg);
    var next, next' := n.pending[t].phase, n'.pending[t].phase;
    assert q' == PublicQuery(q, reserved) && m'.rep.stats == PublicStats(m.rep.stats, reserved);
    LookPublic(fl.phase, q, m.rep.stats, env.cfg.ranker, m.rep.objs, lfu, next, reserved);
    if Blinded(m, turn, env) {
      BlindLook(q, m'.rep.stats, env.cfg.ranker, m'.rep.objs, lfu, next', reserved);
    } else {
      LooksAlike(fl.phase, q', m'.rep.stats, env.cfg.ranker, m.rep, m'.rep, rho, reserved, lfu, next, next');
    }
  }

  lemma BlindLook(q: Query, stats: map<StatsKey, StatEntry>, ranker: RankerConfig, objs: map<Held, Pointer>, lfu: bool, next: Phase,
                  reserved: set<string>)
    requires q.req.tenant !in reserved && OnlyReserved(q.es, reserved)
    requires LookStep(Missed, PublicQuery(q, reserved), stats, ranker, objs, lfu, next)
    ensures next == Found(NO_MATCH)
  {
    hide MissF, OnlyReserved, Public;
    MissSeesProbe(q.es, q.req, reserved);
  }

  lemma UsedNamed(rho: Renaming, result: LookupResult, result': LookupResult, reply: Reply)
    requires OneToOne(rho) && SameHits(result.hits, result'.hits, rho)
    ensures forall p :: p in rho ==> Used(result', reply, rho[p]) == Used(result, reply, p)
    ensures forall p :: p !in rho ==> Used(result, reply, p) == 0
    ensures forall x :: Used(result', reply, x) != 0 ==> IsName(rho, x)
  {
    hide Uses, SameHits, Ids, OneToOne;
    var ids := Ids(reply.scores);
    UsesOnlyNamed(result.hits, result'.hits, rho, ids);
    forall p | p in rho ensures Used(result', reply, rho[p]) == Used(result, reply, p) {
      UsesNamed(result.hits, result'.hits, rho, ids, p);
    }
  }

  lemma DueDelivers(due: multiset<Pointer>, due': multiset<Pointer>, later: multiset<Pointer>, later': multiset<Pointer>, rho: Renaming,
                    result: LookupResult, result': LookupResult, reply: Reply)
    requires SameDue(due, due', rho) && OneToOne(rho) && SameHits(result.hits, result'.hits, rho)
    requires forall p :: later[p] == due[p] + Used(result, reply, p)
    requires forall p :: later'[p] == due'[p] + Used(result', reply, p)
    ensures SameDue(later, later', rho)
  {
    hide Used, SameHits, OneToOne, IsName;
    UsedNamed(rho, result, result', reply);
    forall p | p in later ensures p in rho {
      assert later[p] > 0;
    }
    forall x | x in later' ensures IsName(rho, x) {
      assert later'[x] > 0;
    }
  }

  lemma NothingUsed(due: multiset<Pointer>, later: multiset<Pointer>, result: LookupResult, reply: Reply)
    requires reply.reason != PREFIX_MATCH && forall p :: later[p] == due[p] + Used(result, reply, p)
    ensures later == due
  {}

  lemma GateTwin(result: LookupResult, result': LookupResult, pol: Policies, tenant: string, rho: Renaming)
    requires result'.scores == result.scores && result'.strategy == result.strategy && SameHits(result.hits, result'.hits, rho)
    ensures var gated, gated' := GateHot(result, pol, tenant), GateHot(result', pol, tenant);
            gated'.scores == gated.scores && gated'.strategy == gated.strategy && SameHits(gated.hits, gated'.hits, rho)
  {}

  /** The reply differs exactly when the lookup had gone astray. */
  lemma DeliverTwin(m: Moment, m': Moment, turn: Turn, n: Moment, n': Moment, rho: Renaming, astray: set<Ticket>, env: Env)
    requires Kindred(m, m', rho, astray) && SamePublic(m, m', env.cfg.reserved) && IsPublic(m, env) && OneToOne(rho)
    requires turn.Deliver? && Ready(m, turn.ticket) && DeliverNext(m, turn.ticket, turn.pol, n, env)
    requires Ready(m', turn.ticket) && DeliverNext(m', turn.ticket, turn.pol, n', env)
    ensures Kindred(n, n', rho, AstrayNext(m, turn, astray, env))
    ensures var reply, reply' := n.answers[|m.answers|].reply, n'.answers[|m'.answers|].reply;
            && (reply' == reply <==> turn.ticket !in astray)
            && (turn.ticket in astray ==> reply == Reply(UNKNOWN_TENANT, []) && reply'.reason in {NO_HINT, AFFINITY_HINT})
  {
    hide EntriesOf, Public, PublicStats, SameDue, Response.Delivered, Used, OneToOne, SameHits;
    var t, pol := turn.ticket, turn.pol;
    var fl, fl' := m.pending[t], m'.pending[t];
    var reply, reply' := n.answers[|m.answers|].reply, n'.answers[|m'.answers|].reply;
    var result, result' := ResultOf(m, t, pol), ResultOf(m', t, pol);
    var es := EntriesOf(m'.rep);
    DeliveredPublic(reply, result, fl.req, fl.inp, pol, EntriesOf(m.rep), env.digest, env.cfg.reserved);
    assert Response.Delivered(reply, result, fl.req, fl.inp, pol, es, env.digest);
    if t in astray {
      AstrayReply(reply, reply', fl.req, fl.inp, pol, es, env.digest);
      NothingUsed(m.due, n.due, result, reply);
      NothingUsed(m'.due, n'.due, result', reply');
    } else {
      GateTwin(fl.phase.result, fl'.phase.result, pol, fl.req.tenant, rho);
      SameReply(reply, reply', result, result', fl.req, fl.inp, pol, es, env.digest);
      DueDelivers(m.due, m'.due, n.due, n'.due, rho, result, result', reply);
    }
  }

  lemma AstrayReply(reply: Reply, reply': Reply, req: RouteRequest, inp: Inputs, pol: Policies, es: Entries, digest: string -> nat)
    requires Response.Delivered(reply, LookupResult([], UnknownTenant, map[]), req, inp, pol, es, digest)
    requires Response.Delivered(reply', NO_MATCH, req, inp, pol, es, digest)
    ensures reply == Reply(UNKNOWN_TENANT, []) && reply'.reason in {NO_HINT, AFFINITY_HINT}
  {
    hide Serving, IsPick, AffinityApplies;
  }

  lemma IncrementTwin(m: Moment, m': Moment, p: Pointer, rho: Renaming)
    requires SameDue(m.due, m'.due, rho) && OneToOne(rho) && p in m.due
    ensures p in rho && rho[p] in m'.due && SameDue(m.due - multiset{p}, m'.due - multiset{rho[p]}, rho)
  {
    assert forall x :: x in m'.due - multiset{rho[p]} ==> x in m'.due;
    assert m'.due[rho[p]] == m.due[p];
  }

  /** Turns of reports, events, sweeps and probes. */
  predicate IsAside(turn: Turn) {
    turn.Report? || turn.Notify? || turn.Tick? || turn.Begin? || turn.Check? || turn.Finish?
  }

  lemma AsideNext(m: Moment, turn: Turn, n: Moment, env: Env)
    requires Next(m, turn, n, env) && IsAside(turn)
    ensures n.pending == m.pending && n.due == m.due
    ensures m.probes == map[] && !turn.Begin? ==> n.probes == map[]
  {
    hide Moves, StateOf, LookNext, DeliverNext, ResolveChain, ShortAnswer, Checked;
  }

  lemma ArriveNext(m: Moment, turn: Turn, n: Moment, env: Env)
    requires Next(m, turn, n, env) && turn.Arrive?
    ensures n.due == m.due && n.probes == m.probes
    ensures var short, inp := ShortAnswer(turn.req, turn.pol, env.chain, turn.deadline),
                              ResolveChain(turn.req, turn.pol.ChainMatchingEnabled(turn.req.tenant), env.chain);
            if turn.ticket in m.pending || short.Some? then n.pending == m.pending
            else inp.Some? && n.pending == m.pending[turn.ticket := Inflight(turn.req, inp.value, Matching)]
  {
    hide Moves, StateOf, LookNext, DeliverNext, ResolveChain, ShortAnswer, Checked;
  }

  lemma ExpireNext(m: Moment, turn: Turn, n: Moment, env: Env)
    requires Next(m, turn, n, env) && turn.Expire?
    ensures n.due == m.due && n.probes == m.probes && n.pending == m.pending - {turn.ticket}
  {
    hide Moves, StateOf, LookNext, DeliverNext, ResolveChain, ShortAnswer, Checked;
  }

  lemma IncrementNext(m: Moment, turn: Turn, n: Moment, env: Env)
    requires Next(m, turn, n, env) && turn.Increment? && WellKept(m, env)
    ensures n.pending == m.pending && n.probes == m.probes
    ensures n.due == if turn.p in m.due then m.due - multiset{turn.p} else m.due
  {
    hide Sound, Settled, Moves, StateOf, LookNext, DeliverNext, ResolveChain, ShortAnswer, Checked;
  }

  lemma IdleTwin(m: Moment, m': Moment, turn: Turn, n: Moment, n': Moment, rho: Renaming, astray: set<Ticket>, env: Env)
    requires Kindred(m, m', rho, astray) && Next(m, turn, n, env) && Next(m', Quiet(turn, rho), n', env)
    requires IsAside(turn)
    ensures Kindred(n, n', rho, AstrayNext(m, turn, astray, env))
  {
    hide Next, SameFlight, SameDue;
    AsideNext(m, turn, n, env);
    AsideNext(m', Quiet(turn, rho), n', env);
  }

  lemma TicketTwin(m: Moment, m': Moment, turn: Turn, n: Moment, n': Moment, rho: Renaming, astray: set<Ticket>, env: Env)
    requires Kindred(m, m', rho, astray) && Next(m, turn, n, env) && Next(m', Quiet(turn, rho), n', env)
    requires turn.Arrive? || turn.Expire?
    ensures Kindred(n, n', rho, AstrayNext(m, turn, astray, env))
  {
    hide Next, SameHits, SameDue, ShortAnswer, ResolveChain;
    if turn.Arrive? {
      ArriveNext(m, turn, n, env);
      ArriveNext(m', turn, n', env);
    } else {
      ExpireNext(m, turn, n, env);
      ExpireNext(m', turn, n', env);
    }
  }

  lemma CreditTwin(m: Moment, m': Moment, turn: Turn, n: Moment, n': Moment, rho: Renaming, astray: set<Ticket>, env: Env)
    requires Kindred(m, m', rho, astray) && Next(m, turn, n, env) && Next(m', Quiet(turn, rho), n', env)
    requires turn.Increment? && WellKept(m, env) && WellKept(m', env) && OneToOne(rho)
    ensures Kindred(n, n', rho, AstrayNext(m, turn, astray, env))
  {
    hide Next, WellKept, SameFlight, OneToOne, IsName;
    IncrementNext(m, turn, n, env);
    if turn.p in rho {
      IncrementNext(m', Increment(rho[turn.p]), n', env);
      if turn.p in m.due {
        IncrementTwin(m, m', turn.p, rho);
      }
    } else {
      AsideNext(m', IDLE, n', env);
    }
  }

  /** One turn keeps the lookups and increments of both histories alike. */
  lemma KindredNext(m: Moment, m': Moment, turn: Turn, n: Moment, n': Moment, rho: Renaming, astray: set<Ticket>, env: Env)
    requires WellKept(m, env) && WellKept(m', env) && Next(m, turn, n, env) && Next(m', Quiet(turn, rho), n', env)
    requires Kindred(m, m', rho, astray) && SamePublic(m, m', env.cfg.reserved) && IsPublic(m, env)
    requires Named(m.rep, m'.rep, rho, env.cfg.reserved)
    ensures Kindred(n, n', rho, AstrayNext(m, turn, astray, env))
  {
    hide Next, WellKept, SameHits, SameDue, SamePublic, OneToOne, Blinded;
    if IsAside(turn) {
      IdleTwin(m, m', turn, n, n', rho, astray, env);
    } else if turn.Arrive? || turn.Expire? {
      TicketTwin(m, m', turn, n, n', rho, astray, env);
    } else if turn.Increment? {
      CreditTwin(m, m', turn, n, n', rho, astray, env);
    } else {
      hide Named, IsPublic;
      AnswerTwin(m, m', turn, n, n', rho, astray, env);
    }
  }

  lemma UnmovedNext(m: Moment, turn: Turn, n: Moment, env: Env)
    requires Next(m, turn, n, env)
    requires (turn.LookAgain? && !UnderWay(m, turn.ticket)) || (turn.Deliver? && !Ready(m, turn.ticket))
    ensures n == m
  {
    hide Moves, StateOf, LookNext, DeliverNext, ResolveChain, ShortAnswer, Checked;
  }

  lemma AnswerTwin(m: Moment, m': Moment, turn: Turn, n: Moment, n': Moment, rho: Renaming, astray: set<Ticket>, env: Env)
    requires WellKept(m, env) && WellKept(m', env) && Next(m, turn, n, env) && Next(m', turn, n', env)
    requires Kindred(m, m', rho, astray) && SamePublic(m, m', env.cfg.reserved) && IsPublic(m, env)
    requires Named(m.rep, m'.rep, rho, env.cfg.reserved) && (turn.LookAgain? || turn.Deliver?)
    ensures Kindred(n, n', rho, AstrayNext(m, turn, astray, env))
  {
    hide Next, WellKept, SameHits, SameDue, SamePublic, OneToOne, LookNext, DeliverNext, OnlyReserved, EntriesOf;
    assert UnderWay(m, turn.ticket) <==> UnderWay(m', turn.ticket);
    assert Ready(m, turn.ticket) <==> Ready(m', turn.ticket);
    if turn.LookAgain? && UnderWay(m, turn.ticket) {
      LookAgainNext(m, turn, n, env);
      LookAgainNext(m', turn, n', env);
      KeptSound(m', env);
      SoundIsTidy(m'.rep, env.cfg.reserved);
      LookTwin(m, m', turn, n, n', rho, astray, env);
    } else if turn.Deliver? && Ready(m, turn.ticket) {
      DeliverTurn(m, turn, n, env);
      DeliverTurn(m', turn, n', env);
      DeliverTwin(m, m', turn, n, n', rho, astray, env);
    } else {
      UnmovedNext(m, turn, n, env);
      UnmovedNext(m', turn, n', env);
    }
  }

  // ---- Whole histories ----

  lemma BumpTwin(r: Rep, r': Rep, rho: Renaming, reserved: set<string>, p: Pointer)
    requires Named(r, r', rho, reserved) && Tidy(r) && p in rho
    ensures Bumped(r'.objs, rho[p]) == Bumped(r.objs, p)
  {
    forall h ensures h in r.objs && r.objs[h] == p <==> h in r'.objs && r'.objs[h] == rho[p] {
    }
  }

  lemma DueAllocated(m: Moment, env: Env, p: Pointer)
    requires WellKept(m, env) && p in m.due
    ensures p < |m.rep.arena|
  {}

  lemma IncrementOp(m: Moment, m': Moment, p: Pointer, rho: Renaming, env: Env)
    requires WellKept(m, env) && WellKept(m', env) && Named(m.rep, m'.rep, rho, env.cfg.reserved) && SameDue(m.due, m'.due, rho) && p in rho
    ensures p in m.due <==> rho[p] in m'.due
    ensures p in m.due ==> p < |m.rep.arena| && rho[p] < |m'.rep.arena|
    ensures Bumped(m'.rep.objs, rho[p]) == Bumped(m.rep.objs, p)
  {
    hide WellKept, Bumped, Named, IsName;
    KeptSound(m, env);
    assert Tidy(m.rep) by { SoundIsTidy(m.rep, env.cfg.reserved); }
    BumpTwin(m.rep, m'.rep, rho, env.cfg.reserved, p);
    if p in m.due {
      DueAllocated(m, env, p);
      DueAllocated(m', env, rho[p]);
    }
  }

  /** The quiet history has the public operations of the other. */
  lemma OpTwin(m: Moment, m': Moment, turn: Turn, rho: Renaming, astray: set<Ticket>, env: Env)
    requires WellKept(m, env) && WellKept(m', env) && Named(m.rep, m'.rep, rho, env.cfg.reserved) && Kindred(m, m', rho, astray)
    ensures OpAt(m', Quiet(turn, rho), env) == PublicAt(m, turn, env)
  {
    hide WellKept, SameFlight, Bumped, Named;
    if turn.Increment? {
      if turn.p in rho {
        IncrementOp(m, m', turn.p, rho, env);
      }
    }
  }

  /** What holds between the moments of the two histories. */
  ghost predicate Alike(m: Moment, m': Moment, rho: Renaming, astray: set<Ticket>, env: Env) {
    SamePublic(m, m', env.cfg.reserved) && Named(m.rep, m'.rep, rho, env.cfg.reserved) && Kindred(m, m', rho, astray)
  }

  lemma FreshAlike(m: Moment, m': Moment, env: Env)
    requires Fresh(m, env) && Fresh(m', env)
    ensures Alike(m, m', map[], {}, env) && Pairing(m.rep, m'.rep) == map[]
  {
    hide Sound;
    KeptSound(m, env);
    KeptSound(m', env);
    SoundIsTidy(m.rep, env.cfg.reserved);
    SoundIsTidy(m'.rep, env.cfg.reserved);
    EmptyPublic(env.cfg.reserved);
  }

  lemma SameKeys(m: Moment, m': Moment, env: Env)
    requires WellKept(m, env) && WellKept(m', env) && SamePublic(m, m', env.cfg.reserved)
    ensures Tidy(m.rep) && Tidy(m'.rep)
    ensures forall h :: h in m'.rep.objs <==> h in m.rep.objs && h.key.tenant !in env.cfg.reserved
  {
    hide WellKept, EntriesOf;
    KeptSound(m, env);
    KeptSound(m', env);
    SoundIsTidy(m.rep, env.cfg.reserved);
    SoundIsTidy(m'.rep, env.cfg.reserved);
    assert forall h :: h in m'.rep.objs <==> h in StateOf(m'.rep).entries;
    assert forall h :: h in m.rep.objs <==> h in StateOf(m.rep).entries;
  }

  lemma AlikeNext(m: Moment, m': Moment, turn: Turn, n: Moment, n': Moment, rho: Renaming, astray: set<Ticket>, env: Env)
    requires WellKept(m, env) && WellKept(m', env) && Next(m, turn, n, env) && Next(m', Quiet(turn, rho), n', env)
    requires Alike(m, m', rho, astray, env) && IsPublic(m, env) && SamePublic(n, n', env.cfg.reserved)
    ensures Alike(n, n', rho + Pairing(n.rep, n'.rep), AstrayNext(m, turn, astray, env), env)
  {
    hide Next, WellKept, Kindred, Named, SamePublic, Pairing, AstrayNext, Quiet, Tidy, IsPublic, Inherits, OneToOne;
    KindredNext(m, m', turn, n, n', rho, astray, env);
    WellKeptNext(m, turn, n, env);
    WellKeptNext(m', Quiet(turn, rho), n', env);
    SameKeys(n, n', env);
    InheritsNext(m, turn, n, env);
    InheritsNext(m', Quiet(turn, rho), n', env);
    NamedNext(m.rep, m'.rep, rho, n.rep, n'.rep, env.cfg.reserved);
    var rho' := rho + Pairing(n.rep, n'.rep);
    assert Extends(rho, rho') by { NamedOneToOne(n.rep, n'.rep, rho', env.cfg.reserved); }
    KindredGrows(n, n', rho, rho', AstrayNext(m, turn, astray, env));
  }

  lemma NamedOneToOne(r: Rep, r': Rep, rho: Renaming, reserved: set<string>)
    requires Named(r, r', rho, reserved)
    ensures OneToOne(rho)
  {}

  lemma AlikeParts(m: Moment, m': Moment, rho: Renaming, astray: set<Ticket>, env: Env)
    requires Alike(m, m', rho, astray, env)
    ensures SamePublic(m, m', env.cfg.reserved) && Named(m.rep, m'.rep, rho, env.cfg.reserved) && Kindred(m, m', rho, astray)
  {}

  lemma AllPublic(ms: seq<Moment>, turns: seq<Turn>, env: Env, n: nat)
    requires History(ms, turns, env) && n < |ms|
    ensures IsPublic(ms[n], env)
  {
    hide Next, Fresh;
    forall t | t in ms[n].pending ensures ms[n].pending[t].req.tenant !in env.cfg.reserved {
      PendingIsPublic(ms, turns, env, t, n);
    }
  }

  lemma SamePublicAt(ms: seq<Moment>, turns: seq<Turn>, ms': seq<Moment>, turns': seq<Turn>, env: Env, n: nat)
    requires History(ms, turns, env) && History(ms', turns', env) && n < |ms| == |ms'|
    requires Ops(ms', turns', env, n) == PublicTrace(ms, turns, env, n)
    ensures SamePublic(ms[n], ms'[n], env.cfg.reserved)
  {
    hide Next, Fresh, StateOf, PublicState, Ops, PublicTrace;
    StoredIsRun(ms', turns', env, n);
    PublicStateSeesNoProbe(ms, turns, env, n);
  }

  lemma TwinStep(ms: seq<Moment>, turns: seq<Turn>, ms': seq<Moment>, turns': seq<Turn>, env: Env, n: nat, rho: Renaming, astray: set<Ticket>)
    requires AreTwins(ms, turns, ms', turns', env) && n < |turns| && turns'[n] == Quiet(turns[n], rho)
    requires Alike(ms[n], ms'[n], rho, astray, env) && Ops(ms', turns', env, n) == PublicTrace(ms, turns, env, n)
    ensures Ops(ms', turns', env, n + 1) == PublicTrace(ms, turns, env, n + 1)
    ensures Alike(ms[n + 1], ms'[n + 1], rho + Pairing(ms[n + 1].rep, ms'[n + 1].rep), AstrayNext(ms[n], turns[n], astray, env), env)
  {
    hide Next, WellKept, Alike, Quiet, AstrayNext, Fresh, OpAt, PublicAt, Pairing, SamePublic, Named, Kindred, Names;
    KeptThroughout(ms, turns, env, n);
    KeptThroughout(ms', turns', env, n);
    AlikeParts(ms[n], ms'[n], rho, astray, env);
    OpTwin(ms[n], ms'[n], turns[n], rho, astray, env);
    SamePublicAt(ms, turns, ms', turns', env, n + 1);
    AllPublic(ms, turns, env, n);
    AlikeNext(ms[n], ms'[n], turns[n], ms[n + 1], ms'[n + 1], rho, astray, env);
  }

  /** Twins are alike at every moment: the same public entries with the same counters,
      the same stats, the same lookups under way but for those gone astray, and the
      same increments to be made. */
  lemma {:induction false} TwinsAreAlike(ms: seq<Moment>, turns: seq<Turn>, ms': seq<Moment>, turns': seq<Turn>, env: Env, n: nat)
    requires AreTwins(ms, turns, ms', turns', env) && n < |ms|
    ensures Alike(ms[n], ms'[n], Names(ms, ms', n), Astray(ms, turns, env, n), env)
    ensures Ops(ms', turns', env, n) == PublicTrace(ms, turns, env, n)
  {
    hide Next, Alike, Quiet, AstrayNext, Fresh, OpAt, PublicAt, Pairing;
    if n == 0 {
      FreshAlike(ms[0], ms'[0], env);
    } else {
      TwinsAreAlike(ms, turns, ms', turns', env, n - 1);
      TwinStep(ms, turns, ms', turns', env, n - 1, Names(ms, ms', n - 1), Astray(ms, turns, env, n - 1));
    }
  }

  // ---- Replies ----

  /** What is answered to a lookup between two moments. */
  ghost function ReplyAt(m: Moment, n: Moment): Option<Reply> {
    if |n.answers| == |m.answers| + 1 && n.answers[|m.answers|].Replied? then Some(n.answers[|m.answers|].reply) else None
  }

  /** What turns other than deliveries answer. */
  ghost function SideReply(m: Moment, turn: Turn, env: Env): Option<Reply> {
    match turn
    case Arrive(t, req, pol, deadline) =>
      var short := ShortAnswer(req, pol, env.chain, deadline);
      if t !in m.pending && short.Some? then Some(Reply(short.value, [])) else None
    case Expire(t) => if t in m.pending then Some(Reply(TIMEOUT, [])) else None
    case _ => None
  }

  lemma SideReplyNext(m: Moment, turn: Turn, n: Moment, env: Env)
    requires Next(m, turn, n, env) && !(turn.Deliver? && Ready(m, turn.ticket))
    ensures ReplyAt(m, n) == SideReply(m, turn, env)
  {
    hide Moves, StateOf, LookStep, DeliverNext, ResolveChain, ShortAnswer, Checked;
  }

  /** Every turn answers the same in both histories, save the delivery of a lookup
      gone astray: that one answers UNKNOWN_TENANT where it would have given no hint or
      an affinity pick. */
  lemma TwinsReplyAlike(ms: seq<Moment>, turns: seq<Turn>, ms': seq<Moment>, turns': seq<Turn>, env: Env, n: nat)
    requires AreTwins(ms, turns, ms', turns', env) && n < |turns|
    ensures var astray := turns[n].Deliver? && turns[n].ticket in Astray(ms, turns, env, n);
            && (ReplyAt(ms'[n], ms'[n + 1]) == ReplyAt(ms[n], ms[n + 1]) <==> !astray)
            && (astray ==> ReplyAt(ms[n], ms[n + 1]) == Some(Reply(UNKNOWN_TENANT, [])) &&
                           exists r :: ReplyAt(ms'[n], ms'[n + 1]) == Some(r) && r.reason in {NO_HINT, AFFINITY_HINT})
  {
    hide Next, WellKept, Fresh, Named, SamePublic, SameHits, SameDue, DeliverNext, Names, Astray, ShortAnswer;
    TwinsAreAlike(ms, turns, ms', turns', env, n);
    var rho, astray := Names(ms, ms', n), Astray(ms, turns, env, n);
    AlikeParts(ms[n], ms'[n], rho, astray, env);
    var m, m', turn := ms[n], ms'[n], turns[n];
    if turn.Deliver? && Ready(m, turn.ticket) {
      DeliverTurn(m, turn, ms[n + 1], env);
      DeliverTurn(m', turn, ms'[n + 1], env);
      AllPublic(ms, turns, env, n);
      NamedOneToOne(m.rep, m'.rep, rho, env.cfg.reserved);
      DeliverTwin(m, m', turn, ms[n + 1], ms'[n + 1], rho, astray, env);
      DeliverReplies(m, turn, ms[n + 1], env);
      DeliverReplies(m', turn, ms'[n + 1], env);
    } else {
      SideReplyNext(m, turn, ms[n + 1], env);
      SideReplyNext(m', turns'[n], ms'[n + 1], env);
    }
  }

  lemma DeliverReplies(m: Moment, turn: Turn, n: Moment, env: Env)
    requires turn.Deliver? && Ready(m, turn.ticket) && DeliverNext(m, turn.ticket, turn.pol, n, env)
    ensures |n.answers| == |m.answers| + 1 && ReplyAt(m, n) == Some(n.answers[|m.answers|].reply)
  {
    hide Response.Delivered, Used;
  }
}
