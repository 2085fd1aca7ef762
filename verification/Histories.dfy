/** Everything the server does to one index, turn by turn. A turn is what runs under
    one acquisition of the index lock, or one lock-free counter increment: a lookup
    is spread over several turns (internal/index/lookup.go:382-432) and is delivered
    and credited later (internal/server/inferencecache_service.go:531-632,
    internal/index/types.go:300-314), and a probe run over several more
    (internal/server/probe.go:289-457). Anything may happen between two turns of one
    request, so a history is an arbitrary sequence of turns.

    `Next` says what each turn does; the theorems are about every history.
 */
module Histories {
  import opened Tally
  import opened Domain
  import opened Policy
  import opened IndexModel
  import opened LookupModel
  import opened Ordering
  import opened Ranking
  import opened Runs
  import opened Isolation
  import opened Bookkeeping
  import opened Lookup
  import opened Routing
  import opened Response
  import opened Probe

  /** What is fixed for a server: its configuration and the hash functions. */
  datatype Env = Env(cfg: Config, chain: Fingerprint, digest: string -> nat, sha: string -> string)

  type Ticket = nat

  /** A lookup under way. */
  datatype Inflight = Inflight(req: RouteRequest, inp: Inputs, phase: Phase)

  /** A probe run under way; runs for one backend and model wait for each other. */
  datatype ProbeKey = ProbeKey(backend: string, model: string)
  datatype RunPhase = Written | Landed | Ended(result: ProbeResult)
  datatype ProbeRun = ProbeRun(req: ProbeRequest, ts: int, phase: RunPhase)

  datatype Answer = Replied(ticket: Ticket, reply: Reply) | Tested(req: ProbeRequest, result: ProbeResult)

  /** The server at one moment: the index, the lookups under way, the increments not
      yet made, the probe runs under way and everything answered. */
  datatype Moment = Moment(rep: Rep, pending: map<Ticket, Inflight>, due: multiset<Pointer>, probes: map<ProbeKey, ProbeRun>,
                           answers: seq<Answer>)

  datatype Turn =
    | Report(u: Update, now: int, pol: Policies)
    | Notify(ev: Event, now: int)
    | Tick(now: int, pol: Policies)
    | Arrive(ticket: Ticket, req: RouteRequest, pol: Policies, deadline: Deadline)
    | LookAgain(ticket: Ticket, now: int, pol: Policies)
    | Deliver(ticket: Ticket, pol: Policies)
    | Expire(ticket: Ticket)
    | Increment(p: Pointer)
    | Begin(probe: ProbeRequest, clock: int, now: int, pol: Policies)
    | Check(key: ProbeKey, now: int, pol: Policies)
    | Finish(key: ProbeKey, clock: int, now: int)

  // ---- One turn ----

  ghost function StateOf(r: Rep): State {
    State(EntriesOf(r), r.stats)
  }

  /** The index goes to the given state; holds that stay keep their entries, and no
      counter is credited. */
  ghost predicate Moves(r: Rep, r': Rep, st: State, reserved: set<string>) {
    && Sound(r', reserved) && StateOf(r') == st
    && Inherits(r.objs, r.home, r'.objs, r'.home) && r'.ledger == r.ledger
  }

  /** The lookup a request under way makes now. */
  ghost function Ask(r: Rep, fl: Inflight, now: int, pol: Policies, cfg: Config): Query {
    Query(EntriesOf(r), IndexRequest(fl.req, fl.inp), now, TtlFor(cfg, pol, fl.req.tenant))
  }

  predicate UnderWay(m: Moment, t: Ticket) {
    t in m.pending && !m.pending[t].phase.Found?
  }

  predicate Ready(m: Moment, t: Ticket) {
    t in m.pending && m.pending[t].phase.Found?
  }

  function KeyOf(req: ProbeRequest): ProbeKey {
    ProbeKey(req.backend, req.model)
  }

  predicate Over(m: Moment, k: ProbeKey) {
    k in m.probes && m.probes[k].phase.Ended?
  }

  ghost function Checked(run: ProbeRun, st: State, now: int, pol: Policies, env: Env): RunPhase {
    match run.phase
    case Written =>
      if StageA(st, run.req, env.sha, now, pol, env.cfg) then Landed else Ended(ProbeResult(Failed, Skipped, Skipped))
    case Landed => Ended(ProbeResult(Ok, if StageB(st, run.req, env.sha, now, pol, env.cfg) then Ok else Failed, Skipped))
    case Ended(_) => run.phase
  }

  /** The increments a delivery makes due. */
  ghost function Used(result: LookupResult, reply: Reply, p: Pointer): int {
    if reply.reason == PREFIX_MATCH then Uses(result.hits, Ids(reply.scores), p) else 0
  }

  ghost predicate LookNext(m: Moment, t: Ticket, now: int, pol: Policies, m': Moment, env: Env)
    requires UnderWay(m, t)
  {
    var fl := m.pending[t];
    && t in m'.pending && m' == m.(pending := m.pending[t := fl.(phase := m'.pending[t].phase)])
    && LookStep(fl.phase, Ask(m.rep, fl, now, pol, env.cfg), m.rep.stats, env.cfg.ranker, m.rep.objs, pol.IsLFU(fl.req.tenant),
                m'.pending[t].phase)
  }

  /** The result a lookup brings to its delivery. */
  function ResultOf(m: Moment, t: Ticket, pol: Policies): LookupResult
    requires Ready(m, t)
  {
    GateHot(m.pending[t].phase.result, pol, m.pending[t].req.tenant)
  }

  ghost predicate DeliverNext(m: Moment, t: Ticket, pol: Policies, m': Moment, env: Env)
    requires Ready(m, t)
  {
    var fl, result := m.pending[t], ResultOf(m, t, pol);
    && |m'.answers| == |m.answers| + 1 && m'.answers[|m.answers|].Replied?
    && var reply := m'.answers[|m.answers|].reply;
       && m' == m.(pending := m.pending - {t}, due := m'.due, answers := m.answers + [Replied(t, reply)])
       && Response.Delivered(reply, result, fl.req, fl.inp, pol, EntriesOf(m.rep), env.digest)
       && (forall p :: m'.due[p] == m.due[p] + Used(result, reply, p))
  }

  /** One atomic increment that was due. */
  ghost function Incremented(m: Moment, p: Pointer): Moment
    requires p < |m.rep.arena|
  {
    m.(rep := m.rep.(arena := m.rep.arena[p := Bookkeeping.Credit(m.rep.arena[p], 1)], ledger := m.rep.ledger + multiset{p}),
       due := m.due - multiset{p})
  }

  /** What a turn does. A turn that does not apply does nothing. */
  ghost predicate Next(m: Moment, turn: Turn, m': Moment, env: Env) {
    var reserved := env.cfg.reserved;
    match turn
    case Report(u, now, pol) =>
      if u.tenant == PROBE_TENANT then m' == m
      else Moves(m.rep, m'.rep, IngestF(StateOf(m.rep), u, now, pol, env.cfg), reserved) && m' == m.(rep := m'.rep)
    case Notify(ev, now) =>
      if ev.tenant == PROBE_TENANT then m' == m
      else Moves(m.rep, m'.rep, EventF(StateOf(m.rep), ev, now), reserved) && m' == m.(rep := m'.rep)
    case Tick(now, pol) =>
      Moves(m.rep, m'.rep, SweepF(StateOf(m.rep), now, pol, env.cfg), reserved) && m' == m.(rep := m'.rep)
    case Arrive(t, req, pol, deadline) =>
      if t in m.pending then m' == m
      else
        var short := ShortAnswer(req, pol, env.chain, deadline);
        if short.Some? then m' == m.(answers := m.answers + [Replied(t, Reply(short.value, []))])
        else
          var inp := ResolveChain(req, pol.ChainMatchingEnabled(req.tenant), env.chain);
          inp.Some? && m' == m.(pending := m.pending[t := Inflight(req, inp.value, Matching)])
    case LookAgain(t, now, pol) => if UnderWay(m, t) then LookNext(m, t, now, pol, m', env) else m' == m
    case Deliver(t, pol) => if Ready(m, t) then DeliverNext(m, t, pol, m', env) else m' == m
    case Expire(t) =>
      if t in m.pending then m' == m.(pending := m.pending - {t}, answers := m.answers + [Replied(t, Reply(TIMEOUT, []))])
      else m' == m
    case Increment(p) =>
      if p in m.due && p < |m.rep.arena| then
        m' == Incremented(m, p)
      else m' == m
    case Begin(req, clock, now, pol) =>
      if KeyOf(req) in m.probes then m' == m
      else
        && Moves(m.rep, m'.rep, IngestF(StateOf(m.rep), ProbeUpdate(req, env.sha, clock), now, pol, env.cfg), reserved)
        && m' == m.(rep := m'.rep, probes := m.probes[KeyOf(req) := ProbeRun(req, TimeOf(clock, now), Written)])
    case Check(k, now, pol) =>
      if k in m.probes then
        m' == m.(probes := m.probes[k := m.probes[k].(phase := Checked(m.probes[k], StateOf(m.rep), now, pol, env))])
      else m' == m
    case Finish(k, clock, now) =>
      if Over(m, k) then
        && Moves(m.rep, m'.rep, EventF(StateOf(m.rep), CleanupEvent(m.probes[k].req, clock), now), reserved)
        && m' == m.(rep := m'.rep, probes := m.probes - {k},
                    answers := m.answers + [Tested(m.probes[k].req, m.probes[k].phase.result)])
      else m' == m
  }

  // ---- What every moment satisfies ----

  ghost predicate Settled(fl: Inflight, size: nat) {
    fl.phase.Found? ==> Coherent(fl.phase.result, size) && BestFirst(fl.phase.result.scores)
  }

  ghost predicate WellKept(m: Moment, env: Env) {
    && Sound(m.rep, env.cfg.reserved)
    && (forall p :: p in m.due ==> p < |m.rep.arena|)
    && (forall t :: t in m.pending ==> Settled(m.pending[t], |m.rep.arena|))
    && (forall k :: k in m.probes ==> KeyOf(m.probes[k].req) == k)
  }

  lemma KeptSound(m: Moment, env: Env)
    requires WellKept(m, env)
    ensures Sound(m.rep, env.cfg.reserved)
  {}

  lemma CoherentGrows(result: LookupResult, a: nat, b: nat)
    requires Coherent(result, a) && a <= b
    ensures Coherent(result, b)
  {}

  lemma SoundSize(r: Rep, reserved: set<string>)
    requires Sound(r, reserved)
    ensures |r.home| == |r.arena|
  {}

  /** What a look finds is coherent. */
  lemma LookCoherent(r: Rep, reserved: set<string>, phase: Phase, q: Query, ranker: RankerConfig, lfu: bool, next: Phase)
    requires Sound(r, reserved) && q.es == EntriesOf(r) && !phase.Found?
    requires LookStep(phase, q, r.stats, ranker, r.objs, lfu, next)
    ensures next.Found? ==> Coherent(next.result, |r.arena|) && BestFirst(next.result.scores)
  {
    hide Sound, EntriesOf, LookupF, HotF, HitsF, MissF, ByteBefore;
    HitsAllocated(r, reserved, q, lfu);
    HitsAreListed(q, r.stats, ranker, r.objs, lfu);
    MissIsNoMatch(q.es, q.req);
    if next.Found? && phase.Matching? && next.result.strategy.PrefixMatch? {
      ListsEmpty(next.result.scores, LookupF(q, r.stats, ranker));
    }
    if next.Found? && phase.Cooling? {
      ListsEmpty(next.result.scores, HotF(q, r.stats, ranker));
    }
  }

  lemma {:induction false} TotalZero<K(!new)>(m: map<K, int>)
    requires forall k :: k in m ==> m[k] == 0
    ensures Total(m) == 0
    decreases |m|
  {
    if m != map[] {
      var k :| k in m;
      TotalSplit(m, k);
      TotalZero(m - {k});
    }
  }

  /** Only entries that occur in the hits are used. */
  lemma UsesOutside(hits: Hits, ids: set<string>, size: nat, p: Pointer)
    requires (forall r :: r in hits ==> forall i :: 0 <= i < |hits[r]| ==> hits[r][i] < size) && p >= size
    ensures Uses(hits, ids, p) == 0
  {
    forall r | r in hits ensures multiset(hits[r])[p] == 0 {
      assert p !in hits[r];
    }
    TotalZero(Marks(hits, ids, p));
  }

  lemma GateCoherent(result: LookupResult, pol: Policies, tenant: string, size: nat)
    requires Coherent(result, size)
    ensures Coherent(GateHot(result, pol, tenant), size)
  {}

  lemma InheritsSize(r: Rep, r': Rep, reserved: set<string>)
    requires Sound(r, reserved) && Sound(r', reserved) && Inherits(r.objs, r.home, r'.objs, r'.home)
    ensures |r.arena| <= |r'.arena|
  {
    SoundSize(r, reserved);
    SoundSize(r', reserved);
  }

  /** Lookups and increments under way survive a move of the index. */
  lemma MovesKeep(m: Moment, r': Rep, st: State, env: Env)
    requires WellKept(m, env) && Moves(m.rep, r', st, env.cfg.reserved)
    ensures WellKept(m.(rep := r'), env)
  {
    hide Sound, StateOf, Coherent, ByteBefore;
    InheritsSize(m.rep, r', env.cfg.reserved);
    forall t | t in m.pending ensures Settled(m.pending[t], |r'.arena|) {
      if m.pending[t].phase.Found? {
        CoherentGrows(m.pending[t].phase.result, |m.rep.arena|, |r'.arena|);
      }
    }
  }

  lemma DeliverKeeps(m: Moment, t: Ticket, pol: Policies, m': Moment, env: Env)
    requires WellKept(m, env) && Ready(m, t) && DeliverNext(m, t, pol, m', env)
    ensures WellKept(m', env)
  {
    hide Sound, Coherent, ByteBefore, Response.Delivered, Uses, Ids;
    var result := m.pending[t].phase.result;
    GateCoherent(result, pol, m.pending[t].req.tenant, |m.rep.arena|);
    var gated := ResultOf(m, t, pol);
    var reply := m'.answers[|m.answers|].reply;
    forall p | p in m'.due ensures p < |m.rep.arena| {
      if p >= |m.rep.arena| {
        assert forall r :: r in gated.hits ==> forall i :: 0 <= i < |gated.hits[r]| ==> gated.hits[r][i] < |m.rep.arena| by {
          CoherentHits(gated, |m.rep.arena|);
        }
        UsesOutside(gated.hits, Ids(reply.scores), |m.rep.arena|, p);
      }
    }
  }

  lemma CoherentHits(result: LookupResult, size: nat)
    requires Coherent(result, size)
    ensures forall r :: r in result.hits ==> forall i :: 0 <= i < |result.hits[r]| ==> result.hits[r][i] < size
  {}

  lemma LookKeeps(m: Moment, t: Ticket, now: int, pol: Policies, m': Moment, env: Env)
    requires WellKept(m, env) && UnderWay(m, t) && LookNext(m, t, now, pol, m', env)
    ensures WellKept(m', env)
  {
    hide Sound, Coherent, ByteBefore, LookStep;
    var fl := m.pending[t];
    LookCoherent(m.rep, env.cfg.reserved, fl.phase, Ask(m.rep, fl, now, pol, env.cfg), env.cfg.ranker, pol.IsLFU(fl.req.tenant),
                 m'.pending[t].phase);
  }

  /** Turns that move the index. */
  predicate IsMove(turn: Turn) {
    turn.Report? || turn.Notify? || turn.Tick? || turn.Begin? || turn.Finish?
  }

  lemma MoveKeeps(m: Moment, turn: Turn, m': Moment, env: Env)
    requires WellKept(m, env) && Next(m, turn, m', env) && IsMove(turn)
    ensures WellKept(m', env)
  {
    hide Sound, StateOf, Settled, IngestF, EventF, SweepF, Inherits, LookNext, DeliverNext, ResolveChain, ShortAnswer, Checked;
    match turn
    case Report(u, now, pol) =>
      if u.tenant != PROBE_TENANT { MovesKeep(m, m'.rep, IngestF(StateOf(m.rep), u, now, pol, env.cfg), env); }
    case Notify(ev, now) =>
      if ev.tenant != PROBE_TENANT { MovesKeep(m, m'.rep, EventF(StateOf(m.rep), ev, now), env); }
    case Tick(now, pol) => MovesKeep(m, m'.rep, SweepF(StateOf(m.rep), now, pol, env.cfg), env);
    case Begin(req, clock, now, pol) =>
      if KeyOf(req) !in m.probes {
        MovesKeep(m, m'.rep, IngestF(StateOf(m.rep), ProbeUpdate(req, env.sha, clock), now, pol, env.cfg), env);
      }
    case Finish(k, clock, now) =>
      if Over(m, k) {
        MovesKeep(m, m'.rep, EventF(StateOf(m.rep), CleanupEvent(m.probes[k].req, clock), now), env);
      }
  }

  lemma RestKeeps(m: Moment, turn: Turn, m': Moment, env: Env)
    requires WellKept(m, env) && Next(m, turn, m', env)
    requires turn.Arrive? || turn.Expire? || turn.Increment? || turn.Check?
    ensures WellKept(m', env)
  {
    hide Sound, StateOf, ResolveChain, ShortAnswer, Checked, Coherent, ByteBefore, Moves, LookNext, DeliverNext;
    if turn.Increment? {
      if turn.p in m.due {
        IncrementKeeps(m, turn.p, env);
      }
    }
  }

  lemma IncrementKeeps(m: Moment, p: Pointer, env: Env)
    requires WellKept(m, env) && p in m.due
    ensures p < |m.rep.arena| && WellKept(Incremented(m, p), env)
  {
    hide Sound, Settled;
    CreditSound(m.rep, env.cfg.reserved, p);
    assert forall x :: x in m.due - multiset{p} ==> x in m.due;
  }

  lemma WellKeptNext(m: Moment, turn: Turn, m': Moment, env: Env)
    requires WellKept(m, env) && Next(m, turn, m', env)
    ensures WellKept(m', env)
  {
    hide WellKept, StateOf, Moves, LookNext, DeliverNext, ResolveChain, ShortAnswer, Checked;
    if IsMove(turn) {
      MoveKeeps(m, turn, m', env);
    } else if turn.LookAgain? {
      if UnderWay(m, turn.ticket) {
        LookKeeps(m, turn.ticket, turn.now, turn.pol, m', env);
      }
    } else if turn.Deliver? {
      if Ready(m, turn.ticket) {
        DeliverKeeps(m, turn.ticket, turn.pol, m', env);
      }
    } else {
      RestKeeps(m, turn, m', env);
    }
  }

  // ---- Histories ----

  /** A server that has just started. */
  ghost predicate Fresh(m: Moment, env: Env) {
    && WellKept(m, env) && StateOf(m.rep) == State(map[], map[]) && m.rep.ledger == multiset{}
    && m.pending == map[] && m.due == multiset{} && m.probes == map[] && m.answers == []
  }

  /** The moments before, between and after the turns. */
  ghost predicate History(ms: seq<Moment>, turns: seq<Turn>, env: Env) {
    && env.cfg.reserved == {PROBE_TENANT} && |ms| == |turns| + 1 && Fresh(ms[0], env)
    && forall i :: 0 <= i < |turns| ==> Next(ms[i], turns[i], ms[i + 1], env)
  }

  lemma {:induction false} KeptThroughout(ms: seq<Moment>, turns: seq<Turn>, env: Env, n: nat)
    requires History(ms, turns, env) && n < |ms|
    ensures WellKept(ms[n], env)
  {
    hide WellKept, Next;
    if n > 0 {
      KeptThroughout(ms, turns, env, n - 1);
      WellKeptNext(ms[n - 1], turns[n - 1], ms[n], env);
    }
  }

  // ---- The operations a history amounts to ----

  /** The holds an increment of entry `p` shows in. */
  ghost function Bumped(objs: map<Held, Pointer>, p: Pointer): map<Held, nat> {
    map h | h in objs && objs[h] == p :: 1
  }

  /** The operation of a turn on the stored state, if any. */
  ghost function OpAt(m: Moment, turn: Turn, env: Env): seq<Op> {
    match turn
    case Report(u, now, pol) => if u.tenant == PROBE_TENANT then [] else [Ingest(u, now, pol)]
    case Notify(ev, now) => if ev.tenant == PROBE_TENANT then [] else [Publish(ev, now)]
    case Tick(now, pol) => [Sweep(now, pol)]
    case Increment(p) => if p in m.due && p < |m.rep.arena| then [Op.Credit(Bumped(m.rep.objs, p))] else []
    case Begin(req, clock, now, pol) =>
      if KeyOf(req) in m.probes then [] else [Ingest(ProbeUpdate(req, env.sha, clock), now, pol)]
    case Finish(k, clock, now) => if Over(m, k) then [Publish(CleanupEvent(m.probes[k].req, clock), now)] else []
    case _ => []
  }

  ghost function Ops(ms: seq<Moment>, turns: seq<Turn>, env: Env, n: nat): seq<Op>
    requires n <= |turns| < |ms|
  {
    if n == 0 then [] else Ops(ms, turns, env, n - 1) + OpAt(ms[n - 1], turns[n - 1], env)
  }

  lemma BumpIsCredit(r: Rep, p: Pointer, reserved: set<string>)
    requires Sound(r, reserved) && p < |r.arena|
    ensures var r' := r.(arena := r.arena[p := Bookkeeping.Credit(r.arena[p], 1)], ledger := r.ledger + multiset{p});
            StateOf(r') == CreditF(StateOf(r), Bumped(r.objs, p))
  {
    hide Flattens, Accounts, Credited, Group;
    var r' := r.(arena := r.arena[p := Bookkeeping.Credit(r.arena[p], 1)], ledger := r.ledger + multiset{p});
    assert EntriesOf(r') == CreditF(StateOf(r), Bumped(r.objs, p)).entries;
  }

  lemma OpStep(m: Moment, turn: Turn, m': Moment, env: Env)
    requires WellKept(m, env) && Next(m, turn, m', env)
    ensures StateOf(m'.rep) == if OpAt(m, turn, env) == [] then StateOf(m.rep) else Step(StateOf(m.rep), OpAt(m, turn, env)[0], env.cfg)
    ensures |OpAt(m, turn, env)| <= 1
  {
    hide Sound, StateOf, Settled, Response.Delivered, IngestF, EventF, SweepF, CreditF, LookStep, Inherits, Used,
         StageA, StageB, ResolveChain, ShortAnswer;
    if turn.Increment? && turn.p in m.due {
      BumpIsCredit(m.rep, turn.p, env.cfg.reserved);
    }
  }

  lemma RunOne(ops: seq<Op>, op: Op, cfg: Config)
    ensures Runs.Run(ops + [op], cfg) == Step(Runs.Run(ops, cfg), op, cfg)
  {
    assert (ops + [op])[..|ops + [op]| - 1] == ops;
  }

  /** At every moment the stored state is the run of the operations so far, so every
      theorem about runs holds of every moment of every history. */
  lemma {:induction false} StoredIsRun(ms: seq<Moment>, turns: seq<Turn>, env: Env, n: nat)
    requires History(ms, turns, env) && n < |ms|
    ensures StateOf(ms[n].rep) == Runs.Run(Ops(ms, turns, env, n), env.cfg)
  {
    hide Next, WellKept, StateOf, Step, OpAt;
    if n > 0 {
      StoredIsRun(ms, turns, env, n - 1);
      KeptThroughout(ms, turns, env, n - 1);
      OpStep(ms[n - 1], turns[n - 1], ms[n], env);
      var before, more := Ops(ms, turns, env, n - 1), OpAt(ms[n - 1], turns[n - 1], env);
      if more == [] {
        assert before + more == before;
      } else {
        assert more == [more[0]];
        RunOne(before, more[0], env.cfg);
      }
    }
  }

  /** The same without the probes. */
  ghost function PublicAt(m: Moment, turn: Turn, env: Env): seq<Op> {
    if turn.Begin? || turn.Finish? then [] else OpAt(m, turn, env)
  }

  ghost function PublicTrace(ms: seq<Moment>, turns: seq<Turn>, env: Env, n: nat): seq<Op>
    requires n <= |turns| < |ms|
  {
    if n == 0 then [] else PublicTrace(ms, turns, env, n - 1) + PublicAt(ms[n - 1], turns[n - 1], env)
  }

  /** The public part of at most one operation. */
  ghost function PublicPart(more: seq<Op>, reserved: set<string>): seq<Op> {
    if more == [] || TouchesReserved(more[0], reserved) then [] else more
  }

  lemma PublicOpsMore(ops: seq<Op>, more: seq<Op>, reserved: set<string>)
    requires |more| <= 1
    ensures PublicOps(ops + more, reserved) == PublicOps(ops, reserved) + PublicPart(more, reserved)
  {
    hide TouchesReserved;
    if more == [] {
      assert ops + more == ops;
    } else {
      assert (ops + more)[..|ops + more| - 1] == ops;
      assert more == [more[0]];
    }
  }

  lemma OpIsPublic(m: Moment, turn: Turn, env: Env)
    requires env.cfg.reserved == {PROBE_TENANT}
    ensures |OpAt(m, turn, env)| <= 1
    ensures PublicAt(m, turn, env) == PublicPart(OpAt(m, turn, env), env.cfg.reserved)
  {}

  lemma {:induction false} TraceIsPublic(ms: seq<Moment>, turns: seq<Turn>, env: Env, n: nat)
    requires n <= |turns| < |ms| && env.cfg.reserved == {PROBE_TENANT}
    ensures PublicOps(Ops(ms, turns, env, n), env.cfg.reserved) == PublicTrace(ms, turns, env, n)
  {
    hide OpAt, PublicAt, PublicPart, PublicOps;
    if n == 0 {
      NoPublicOps(env.cfg.reserved);
    } else {
      TraceIsPublic(ms, turns, env, n - 1);
      OpIsPublic(ms[n - 1], turns[n - 1], env);
      PublicOpsMore(Ops(ms, turns, env, n - 1), OpAt(ms[n - 1], turns[n - 1], env), env.cfg.reserved);
    }
  }

  lemma NoPublicOps(reserved: set<string>)
    ensures PublicOps([], reserved) == []
  {}

  /** Public state is the run of the public turns alone: reports, events and sweeps as
      they came, and the increments of delivered lookups. Probes leave no trace in it,
      at any moment, not even in the middle of a run. What lookups see of probes is
      in `Noninterference` and `Twins`. */
  lemma PublicStateSeesNoProbe(ms: seq<Moment>, turns: seq<Turn>, env: Env, n: nat)
    requires History(ms, turns, env) && n < |ms|
    ensures PublicState(StateOf(ms[n].rep), env.cfg.reserved) == Runs.Run(PublicTrace(ms, turns, env, n), env.cfg)
  {
    hide Next, Fresh, StateOf, PublicState;
    StoredIsRun(ms, turns, env, n);
    TraceIsPublic(ms, turns, env, n);
    RealWorkloadUnaffected(Ops(ms, turns, env, n), env.cfg);
  }

  lemma AlwaysBounded(ms: seq<Moment>, turns: seq<Turn>, env: Env, n: nat)
    requires History(ms, turns, env) && n < |ms| && env.cfg.maxEntries > 0
    ensures |Unreserved(EntriesOf(ms[n].rep).Keys, env.cfg.reserved)| <= env.cfg.maxEntries
  {
    StoredIsRun(ms, turns, env, n);
    AlwaysWithinCap(Ops(ms, turns, env, n), env.cfg);
  }

  // ---- Frequency credit is conserved ----

  /** The uses a turn delivers of entry `p`. */
  ghost function DeliversAt(m: Moment, turn: Turn, m': Moment, p: Pointer): int {
    if turn.Deliver? && Ready(m, turn.ticket) && |m'.answers| > |m.answers| && m'.answers[|m.answers|].Replied?
       && m'.answers[|m.answers|].reply.reason == PREFIX_MATCH then
      Uses(m.pending[turn.ticket].phase.result.hits, Ids(m'.answers[|m.answers|].reply.scores), p)
    else 0
  }

  /** How often entry `p` occurs in the hits of delivered prefix matches so far. */
  ghost function DeliveredUses(ms: seq<Moment>, turns: seq<Turn>, n: nat, p: Pointer): int
    requires n <= |turns| < |ms|
  {
    if n == 0 then 0 else DeliveredUses(ms, turns, n - 1, p) + DeliversAt(ms[n - 1], turns[n - 1], ms[n], p)
  }

  lemma CreditStep(m: Moment, turn: Turn, m': Moment, env: Env, p: Pointer)
    requires WellKept(m, env) && Next(m, turn, m', env)
    ensures m'.rep.ledger[p] + m'.due[p] == m.rep.ledger[p] + m.due[p] + DeliversAt(m, turn, m', p)
  {
    hide Sound, StateOf, Settled, Response.Delivered, IngestF, EventF, SweepF, LookStep, Inherits, Uses, Ids,
         StageA, StageB, ResolveChain, ShortAnswer;
    if turn.Deliver? && Ready(m, turn.ticket) {
      MatchIsUngated(m, turn, m', env);
    }
  }

  /** A delivered match is the match that was found. */
  lemma MatchIsUngated(m: Moment, turn: Turn, m': Moment, env: Env)
    requires turn.Deliver? && Ready(m, turn.ticket) && DeliverNext(m, turn.ticket, turn.pol, m', env)
    ensures m'.answers[|m.answers|].reply.reason == PREFIX_MATCH ==> ResultOf(m, turn.ticket, turn.pol) == m.pending[turn.ticket].phase.result
  {
    hide Used, Serving, IsPick, Survivors, ClearsPrefixFloor, AffinityApplies;
  }

  /** Over every history a counter, with the increments of its entry still to be
      made, is the number of the entry's occurrences in what was delivered. Reports,
      timeouts, floors, downgrades, diagnoses and affinity picks add nothing. */
  lemma {:induction false} CreditIsConserved(ms: seq<Moment>, turns: seq<Turn>, env: Env, n: nat, p: Pointer)
    requires History(ms, turns, env) && n < |ms|
    ensures ms[n].rep.ledger[p] + ms[n].due[p] == DeliveredUses(ms, turns, n, p)
    ensures p < |ms[n].rep.arena| ==> ms[n].rep.arena[p].hits + ms[n].due[p] == DeliveredUses(ms, turns, n, p)
  {
    hide Next, DeliversAt, WellKept, StateOf;
    KeptThroughout(ms, turns, env, n);
    if n > 0 {
      hide Fresh;
      CreditIsConserved(ms, turns, env, n - 1, p);
      KeptThroughout(ms, turns, env, n - 1);
      CreditStep(ms[n - 1], turns[n - 1], ms[n], env, p);
    }
    if p < |ms[n].rep.arena| {
      KeptSound(ms[n], env);
      SoundCredited(ms[n].rep, env.cfg.reserved, p);
    }
  }
}
