/** Probe runs within arbitrary histories (internal/server/probe.go:125-146, 289-457):
    their turns interleave with everything else the server does, and with runs for
    other backends and models. Every run that the clock does not outlast passes, and
    at every moment the reserved tenant holds nothing but what runs under way wrote.
 */
module ProbeHistories {
  import opened Domain
  import opened Policy
  import opened IndexModel
  import opened Eviction
  import opened Runs
  import opened Isolation
  import opened Bookkeeping
  import opened Routing
  import opened Response
  import opened Probe
  import opened Histories

  // ---- Runs pass ----

  /** The clock reading of a sweep or of the run's own check: less than the time to
      live since the run's entry was written. */
  ghost predicate TimelyTurn(m: Moment, turn: Turn, env: Env, k: ProbeKey)
    requires k in m.probes
  {
    match turn
    case Tick(now, pol) => Young(now, m.probes[k].ts, pol, env.cfg)
    case Check(j, now, pol) => j == k ==> Young(now, m.probes[k].ts, pol, env.cfg)
    case _ => true
  }

  /** Every turn since the run under way at moment `n` began was timely for it. What
      other runs do, and what happened before, does not matter. */
  ghost predicate Timely(ms: seq<Moment>, turns: seq<Turn>, env: Env, k: ProbeKey, n: nat)
    requires n <= |turns| < |ms|
  {
    n == 0 || k !in ms[n - 1].probes || (TimelyTurn(ms[n - 1], turns[n - 1], env, k) && Timely(ms, turns, env, k, n - 1))
  }

  /** The outcome of an undisturbed run. */
  function Due(req: ProbeRequest): ProbeResult {
    if req.hashScheme == "" then ProbeResult(Failed, Skipped, Skipped)
    else ProbeResult(Ok, if req.model != "" then Ok else Failed, Skipped)
  }

  /** The run's entry is as it wrote it, and its checks so far came out as due. */
  ghost predicate OnTrack(run: ProbeRun, st: State, env: Env) {
    && (run.req.hashScheme != "" ==> Intact(st, ProbeHold(run.req, env.sha), run.ts))
    && (run.phase.Landed? ==> run.req.hashScheme != "")
    && (run.phase.Ended? ==> run.phase.result == Due(run.req))
  }

  /** No operation of another turn touches the entry of a run under way. */
  lemma OpIsMeanwhile(m: Moment, turn: Turn, env: Env, k: ProbeKey)
    requires WellKept(m, env) && k in m.probes && TimelyTurn(m, turn, env, k)
    requires turn.Finish? ==> turn.key != k
    ensures forall i :: 0 <= i < |OpAt(m, turn, env)| ==>
              Meanwhile(OpAt(m, turn, env)[i], m.probes[k].req, env.sha, m.probes[k].ts, env.cfg)
  {
    hide Sound, Settled, Young, Bumped, ProbeUpdate;
    match turn
    case Begin(req, clock, now, pol) =>
      if KeyOf(req) !in m.probes {
        assert OtherRun(req, m.probes[k].req);
      }
    case Finish(j, clock, now) =>
      if Over(m, j) {
        assert OtherRun(m.probes[j].req, m.probes[k].req);
      }
    case _ =>
  }

  lemma IntactNext(m: Moment, turn: Turn, m': Moment, env: Env, k: ProbeKey)
    requires WellKept(m, env) && Next(m, turn, m', env) && k in m.probes && TimelyTurn(m, turn, env, k) && PROBE_TENANT in env.cfg.reserved
    requires turn.Finish? ==> turn.key != k
    requires Intact(StateOf(m.rep), ProbeHold(m.probes[k].req, env.sha), m.probes[k].ts)
    ensures Intact(StateOf(m'.rep), ProbeHold(m.probes[k].req, env.sha), m.probes[k].ts)
  {
    hide Next, WellKept, StateOf, Intact, Step, OpAt, TimelyTurn, Meanwhile;
    OpStep(m, turn, m', env);
    OpIsMeanwhile(m, turn, env, k);
    var ops := OpAt(m, turn, env);
    if ops != [] {
      IntactStep(StateOf(m.rep), ops[0], m.probes[k].req, env.sha, m.probes[k].ts, env.cfg);
    }
  }

  /** How the runs under way change in one turn. */
  lemma ProbesNext(m: Moment, turn: Turn, m': Moment, env: Env, k: ProbeKey)
    requires Next(m, turn, m', env) && k in m'.probes
    ensures k !in m.probes ==>
              && turn.Begin? && KeyOf(turn.probe) == k && m'.probes[k] == ProbeRun(turn.probe, TimeOf(turn.clock, turn.now), Written)
              && StateOf(m'.rep) == IngestF(StateOf(m.rep), ProbeUpdate(turn.probe, env.sha, turn.clock), turn.now, turn.pol, env.cfg)
    ensures k in m.probes ==>
              && (turn.Finish? ==> turn.key != k || (m'.probes[k] == m.probes[k] && StateOf(m'.rep) == StateOf(m.rep)))
              && (if turn.Check? && turn.key == k then
                    && StateOf(m'.rep) == StateOf(m.rep)
                    && m'.probes[k] == m.probes[k].(phase := Checked(m.probes[k], StateOf(m.rep), turn.now, turn.pol, env))
                  else m'.probes[k] == m.probes[k])
  {
    hide Sound, StateOf, Response.Delivered, IngestF, EventF, SweepF, Inherits, LookStep, Used, ResolveChain, ShortAnswer, Checked;
  }

  lemma CheckOnTrack(run: ProbeRun, st: State, now: int, pol: Policies, env: Env)
    requires OnTrack(run, st, env) && Young(now, run.ts, pol, env.cfg)
    ensures OnTrack(run.(phase := Checked(run, st, now, pol, env)), st, env)
  {
    hide StageA, StageB, Young;
    StagesExact(st, run.req, env.sha, now, pol, env.cfg);
  }

  lemma OnTrackNext(m: Moment, turn: Turn, m': Moment, env: Env, k: ProbeKey)
    requires WellKept(m, env) && Next(m, turn, m', env) && k in m'.probes && PROBE_TENANT in env.cfg.reserved
    requires k in m.probes ==> TimelyTurn(m, turn, env, k) && OnTrack(m.probes[k], StateOf(m.rep), env)
    ensures OnTrack(m'.probes[k], StateOf(m'.rep), env)
  {
    hide Next, WellKept, StateOf, Intact, Checked, IngestF;
    ProbesNext(m, turn, m', env, k);
    if k !in m.probes {
      if turn.probe.hashScheme != "" {
        NewRunIntact(StateOf(m.rep), turn, env);
      }
    } else {
      var run := m.probes[k];
      if run.req.hashScheme != "" && (turn.Finish? ==> turn.key != k) {
        IntactNext(m, turn, m', env, k);
      }
      if turn.Check? && turn.key == k {
        CheckOnTrack(run, StateOf(m.rep), turn.now, turn.pol, env);
      }
    }
  }

  lemma NewRunIntact(st: State, turn: Turn, env: Env)
    requires turn.Begin? && turn.probe.hashScheme != "" && PROBE_TENANT in env.cfg.reserved
    ensures Intact(IngestF(st, ProbeUpdate(turn.probe, env.sha, turn.clock), turn.now, turn.pol, env.cfg),
                   ProbeHold(turn.probe, env.sha), TimeOf(turn.clock, turn.now))
  {
    hide IngestF;
    ProbeStored(st, turn.probe, env.sha, turn.clock, turn.now, turn.pol, env.cfg);
  }

  lemma {:induction false} OnTrackThroughout(ms: seq<Moment>, turns: seq<Turn>, env: Env, k: ProbeKey, n: nat)
    requires History(ms, turns, env) && n < |ms| && k in ms[n].probes && Timely(ms, turns, env, k, n)
    ensures OnTrack(ms[n].probes[k], StateOf(ms[n].rep), env)
  {
    hide Next, WellKept, StateOf, TimelyTurn, OnTrack;
    assert n > 0;
    if k in ms[n - 1].probes {
      OnTrackThroughout(ms, turns, env, k, n - 1);
    }
    KeptThroughout(ms, turns, env, n - 1);
    OnTrackNext(ms[n - 1], turns[n - 1], ms[n], env, k);
  }

  /** In every history, every finished run that the clock did not outlast has passed,
      or failed for want of a scheme or a model only. */
  lemma EveryRunComesOutAsDue(ms: seq<Moment>, turns: seq<Turn>, env: Env, n: nat)
    requires History(ms, turns, env) && n < |turns| && turns[n].Finish? && Over(ms[n], turns[n].key)
    requires Timely(ms, turns, env, turns[n].key, n)
    ensures var run := ms[n].probes[turns[n].key];
            && ms[n + 1].answers == ms[n].answers + [Tested(run.req, Due(run.req))]
            && (run.req.hashScheme != "" && run.req.model != "" ==> Due(run.req).ingest.Ok? && Due(run.req).routing.Ok?)
  {
    hide Next, WellKept, StateOf, Intact;
    OnTrackThroughout(ms, turns, env, turns[n].key, n);
    FinishAnswers(ms[n], turns[n], ms[n + 1], env);
  }

  lemma FinishAnswers(m: Moment, turn: Turn, m': Moment, env: Env)
    requires Next(m, turn, m', env) && turn.Finish? && Over(m, turn.key)
    ensures m'.answers == m.answers + [Tested(m.probes[turn.key].req, m.probes[turn.key].phase.result)]
  {
    hide StateOf, Moves, LookNext, DeliverNext, ResolveChain, ShortAnswer, Checked;
  }

  // ---- The reserved tenant holds nothing else ----

  /** The hold belongs to a run under way. */
  ghost predicate OfRun(m: Moment, h: Held) {
    exists k :: k in m.probes && OfProbe(m.probes[k].req, h)
  }

  ghost predicate StatsOfRun(m: Moment, s: StatsKey) {
    exists k :: k in m.probes && s == StatsKey(PROBE_TENANT, m.probes[k].req.model, ReplicaId(m.probes[k].req.backend))
  }

  /** Everything stored or reported for the reserved tenant belongs to runs. */
  ghost predicate Confined(m: Moment) {
    && (forall h :: h in StateOf(m.rep).entries && h.key.tenant == PROBE_TENANT ==> OfRun(m, h))
    && (forall s :: s in StateOf(m.rep).stats && s.tenant == PROBE_TENANT ==> StatsOfRun(m, s))
  }

  /** What an operation can add for the reserved tenant: what a probe writes. */
  lemma OpAddsNothing(st: State, op: Op, cfg: Config, h: Held)
    requires h in Step(st, op, cfg).entries && h.key.tenant == PROBE_TENANT
    requires op.Ingest? ==> op.u.tenant != PROBE_TENANT
    ensures h in st.entries
    ensures op.Publish? ==> !Erases(op.ev, h)
  {
    hide IngestF, Writes;
    if op.Ingest? {
      IngestKeepsOnlyWrites(st, op.u, op.now, op.pol, cfg, h);
      forall i | 0 <= i < |Writes(op.u)| ensures Writes(op.u)[i].key != h.key {
        WritesTenant(op.u, i);
      }
      PutAllElsewhere(st.entries, Writes(op.u), op.u.replica, TimeOf(op.u.timestamp, op.now), h);
    }
  }

  lemma ProbeAddsItsOwn(st: State, req: ProbeRequest, sha: string -> string, clock: int, now: int, pol: Policies, cfg: Config, h: Held)
    requires h in IngestF(st, ProbeUpdate(req, sha, clock), now, pol, cfg).entries
    ensures h in st.entries || OfProbe(req, h)
  {
    hide IngestF;
    var u := ProbeUpdate(req, sha, clock);
    IngestKeepsOnlyWrites(st, u, now, pol, cfg, h);
    if !OfProbe(req, h) {
      ProbeWrites(req, sha, clock);
      PutAllElsewhere(st.entries, Writes(u), u.replica, TimeOf(clock, now), h);
    }
  }

  lemma ConfinedEntries(m: Moment, turn: Turn, m': Moment, env: Env, h: Held)
    requires WellKept(m, env) && Next(m, turn, m', env) && Confined(m)
    requires h in StateOf(m'.rep).entries && h.key.tenant == PROBE_TENANT
    ensures OfRun(m', h)
  {
    hide Sound, Settled, StateOf, Response.Delivered, IngestF, EventF, SweepF, Inherits, LookStep, Used, ResolveChain, ShortAnswer,
         Checked, OfProbe, CleanupEvent, Step, OpAt;
    OpStep(m, turn, m', env);
    if turn.Begin? && KeyOf(turn.probe) !in m.probes {
      ProbeAddsItsOwn(StateOf(m.rep), turn.probe, env.sha, turn.clock, turn.now, turn.pol, env.cfg, h);
      if h in StateOf(m.rep).entries {
        var k :| k in m.probes && OfProbe(m.probes[k].req, h);
        assert k in m'.probes && m'.probes[k] == m.probes[k];
      } else {
        assert OfProbe(m'.probes[KeyOf(turn.probe)].req, h);
      }
    } else {
      assert h in StateOf(m.rep).entries && (turn.Finish? && Over(m, turn.key) ==> !OfProbe(m.probes[turn.key].req, h)) by {
        OldEntry(m, turn, m', env, h);
      }
      var k :| k in m.probes && OfProbe(m.probes[k].req, h);
      assert k in m'.probes && m'.probes[k].req == m.probes[k].req by { RunStays(m, turn, m', env, k); }
    }
  }

  /** A run stays under way until its own last turn. */
  lemma RunStays(m: Moment, turn: Turn, m': Moment, env: Env, k: ProbeKey)
    requires Next(m, turn, m', env) && k in m.probes && !(turn.Finish? && turn.key == k && Over(m, k))
    ensures k in m'.probes && m'.probes[k].req == m.probes[k].req && m'.probes[k].ts == m.probes[k].ts
  {
    hide Sound, StateOf, Response.Delivered, IngestF, EventF, SweepF, Inherits, LookStep, Used, ResolveChain, ShortAnswer, Checked;
  }

  /** The operations of turns that do not begin a run. */
  lemma OpKinds(m: Moment, turn: Turn, env: Env)
    requires !(turn.Begin? && KeyOf(turn.probe) !in m.probes)
    ensures forall i :: 0 <= i < |OpAt(m, turn, env)| ==> OpAt(m, turn, env)[i].Ingest? ==> OpAt(m, turn, env)[i].u.tenant != PROBE_TENANT
    ensures turn.Finish? && Over(m, turn.key) ==> OpAt(m, turn, env) == [Publish(CleanupEvent(m.probes[turn.key].req, turn.clock), turn.now)]
  {
    hide Bumped;
  }

  lemma OldEntry(m: Moment, turn: Turn, m': Moment, env: Env, h: Held)
    requires WellKept(m, env) && Next(m, turn, m', env) && !(turn.Begin? && KeyOf(turn.probe) !in m.probes)
    requires h in StateOf(m'.rep).entries && h.key.tenant == PROBE_TENANT
    ensures h in StateOf(m.rep).entries
    ensures turn.Finish? && Over(m, turn.key) ==> !OfProbe(m.probes[turn.key].req, h)
  {
    hide Next, WellKept, StateOf, Step, OpAt, Erases;
    OpStep(m, turn, m', env);
    OpKinds(m, turn, env);
    var ops := OpAt(m, turn, env);
    if ops != [] {
      OpAddsNothing(StateOf(m.rep), ops[0], env.cfg, h);
    }
    if turn.Finish? && Over(m, turn.key) {
      CleanupErases(m.probes[turn.key].req, turn.clock, h);
    }
  }

  lemma ConfinedStats(m: Moment, turn: Turn, m': Moment, env: Env, s: StatsKey)
    requires WellKept(m, env) && Next(m, turn, m', env) && Confined(m)
    requires s in StateOf(m'.rep).stats && s.tenant == PROBE_TENANT
    ensures StatsOfRun(m', s)
  {
    if turn.Begin? && KeyOf(turn.probe) !in m.probes && s == StatsKey(PROBE_TENANT, turn.probe.model, ReplicaId(turn.probe.backend)) {
      hide WellKept, StateOf, Moves, LookNext, DeliverNext, ResolveChain, ShortAnswer, Checked;
      assert KeyOf(turn.probe) in m'.probes && m'.probes[KeyOf(turn.probe)].req == turn.probe;
    } else {
      OldStats(m, turn, m', env, s);
      hide Next, WellKept, StateOf;
      var k :| k in m.probes && s == StatsKey(PROBE_TENANT, m.probes[k].req.model, ReplicaId(m.probes[k].req.backend));
      RunStays(m, turn, m', env, k);
    }
  }

  lemma OldStats(m: Moment, turn: Turn, m': Moment, env: Env, s: StatsKey)
    requires WellKept(m, env) && Next(m, turn, m', env) && s in StateOf(m'.rep).stats && s.tenant == PROBE_TENANT
    requires !(turn.Begin? && KeyOf(turn.probe) !in m.probes && s == StatsKey(PROBE_TENANT, turn.probe.model, ReplicaId(turn.probe.backend)))
    ensures s in StateOf(m.rep).stats
    ensures turn.Finish? && Over(m, turn.key) ==>
              s != StatsKey(PROBE_TENANT, m.probes[turn.key].req.model, ReplicaId(m.probes[turn.key].req.backend))
  {
    hide Next, WellKept, StateOf, Step, OpAt;
    OpStep(m, turn, m', env);
    var ops := OpAt(m, turn, env);
    if turn.Begin? && KeyOf(turn.probe) !in m.probes {
      BeginOp(m, turn, env);
      OpStats(StateOf(m.rep), ops[0], env.cfg, s);
    } else {
      OpKinds(m, turn, env);
      if ops != [] {
        OpStats(StateOf(m.rep), ops[0], env.cfg, s);
      }
    }
  }

  lemma BeginOp(m: Moment, turn: Turn, env: Env)
    requires turn.Begin? && KeyOf(turn.probe) !in m.probes
    ensures OpAt(m, turn, env) == [Ingest(ProbeUpdate(turn.probe, env.sha, turn.clock), turn.now, turn.pol)]
  {}

  /** Stats of the reserved tenant come from its own reports and go with its own
      clearing event. */
  lemma OpStats(st: State, op: Op, cfg: Config, s: StatsKey)
    requires s in Step(st, op, cfg).stats && s.tenant == PROBE_TENANT
    requires op.Ingest? ==> s != StatsKey(op.u.tenant, op.u.model, op.u.replica)
    ensures s in st.stats
    ensures op.Publish? && op.ev.kind.AllCleared? ==> s != StatsKey(op.ev.tenant, op.ev.model, op.ev.replica)
  {
    hide IngestF;
    if op.Ingest? {
      IngestStatsOnly(st, op.u, op.now, op.pol, cfg);
    }
  }

  /** At every moment of every history the reserved tenant holds nothing but what
      runs under way wrote; without one it holds nothing. */
  lemma {:induction false} AlwaysConfined(ms: seq<Moment>, turns: seq<Turn>, env: Env, n: nat)
    requires History(ms, turns, env) && n < |ms|
    ensures Confined(ms[n])
    ensures ms[n].probes == map[] ==> PublicState(StateOf(ms[n].rep), {PROBE_TENANT}) == StateOf(ms[n].rep)
  {
    hide Next, WellKept;
    if n > 0 {
      hide StateOf, OfRun, StatsOfRun;
      AlwaysConfined(ms, turns, env, n - 1);
      KeptThroughout(ms, turns, env, n - 1);
      forall h | h in StateOf(ms[n].rep).entries && h.key.tenant == PROBE_TENANT ensures OfRun(ms[n], h) {
        ConfinedEntries(ms[n - 1], turns[n - 1], ms[n], env, h);
      }
      forall s | s in StateOf(ms[n].rep).stats && s.tenant == PROBE_TENANT ensures StatsOfRun(ms[n], s) {
        ConfinedStats(ms[n - 1], turns[n - 1], ms[n], env, s);
      }
    }
    ConfinedWithoutRuns(ms[n]);
  }

  lemma ConfinedWithoutRuns(m: Moment)
    requires Confined(m)
    ensures m.probes == map[] ==> PublicState(StateOf(m.rep), {PROBE_TENANT}) == StateOf(m.rep)
  {
    hide StateOf;
  }
}
