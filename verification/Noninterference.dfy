/** Probes and real workloads over whole histories (internal/server/probe.go:276-289).
    Every look and every delivery of a public request is one at the state public turns
    alone would have led to, save a diagnosis made while all that is stored is a probe's.
 */
module Noninterference {
  import opened Domain
  import opened Policy
  import opened IndexModel
  import opened LookupModel
  import opened Isolation
  import opened Bookkeeping
  import opened Routing
  import opened Response
  import opened Histories
  import opened ProbeHistories
  import opened Visibility

  // ---- What public requests look at ----

  lemma ArrivalIsPublic(m: Moment, turn: Turn, m': Moment, env: Env, t: Ticket)
    requires Next(m, turn, m', env) && t in m'.pending
    ensures (t in m.pending && m'.pending[t].req == m.pending[t].req) || m'.pending[t].req.tenant != PROBE_TENANT
  {
    hide Sound, StateOf, Response.Delivered, IngestF, EventF, SweepF, LookStep, Inherits, Used, ResolveChain, Checked;
  }

  /** No lookup of the reserved tenant is ever under way. */
  lemma {:induction false} PendingIsPublic(ms: seq<Moment>, turns: seq<Turn>, env: Env, t: Ticket, n: nat)
    requires History(ms, turns, env) && n < |ms| && t in ms[n].pending
    ensures ms[n].pending[t].req.tenant != PROBE_TENANT
  {
    hide Next, WellKept, StateOf;
    assert n > 0;
    ArrivalIsPublic(ms[n - 1], turns[n - 1], ms[n], env, t);
    if t in ms[n - 1].pending {
      PendingIsPublic(ms, turns, env, t, n - 1);
    }
  }

  /** The diagnosis of a miss while all that is stored is reserved. */
  ghost predicate Blinded(m: Moment, turn: Turn, env: Env) {
    && turn.LookAgain? && turn.ticket in m.pending && m.pending[turn.ticket].phase.Missed?
    && OnlyReserved(EntriesOf(m.rep), env.cfg.reserved)
  }

  /** Whatever is stored then was written by probe runs under way. */
  lemma BlindedByProbe(ms: seq<Moment>, turns: seq<Turn>, env: Env, n: nat)
    requires History(ms, turns, env) && n < |turns| && Blinded(ms[n], turns[n], env)
    ensures forall h :: h in EntriesOf(ms[n].rep) ==> OfRun(ms[n], h)
    ensures ms[n].probes != map[]
  {
    hide Next, WellKept, StatsOfRun, EntriesOf;
    AlwaysConfined(ms, turns, env, n);
    var es := EntriesOf(ms[n].rep);
    assert forall h :: h in es ==> h !in Public(es, env.cfg.reserved) && h in StateOf(ms[n].rep).entries;
    var h :| h in es;
    assert OfRun(ms[n], h);
  }

  lemma StatePublic(r: Rep, reserved: set<string>)
    ensures PublicState(StateOf(r), reserved) == State(Public(EntriesOf(r), reserved), PublicStats(r.stats, reserved))
  {}

  lemma LookAgainNext(m: Moment, turn: Turn, m': Moment, env: Env)
    requires Next(m, turn, m', env) && turn.LookAgain? && UnderWay(m, turn.ticket)
    ensures LookNext(m, turn.ticket, turn.now, turn.pol, m', env)
  {
    hide LookNext, DeliverNext, Moves;
  }

  /** Every look of a public lookup is a look at the run of the public turns, save a
      blinded diagnosis, which reads UNKNOWN_TENANT. */
  lemma LookIsPublic(ms: seq<Moment>, turns: seq<Turn>, env: Env, n: nat)
    requires History(ms, turns, env) && n < |turns| && turns[n].LookAgain? && UnderWay(ms[n], turns[n].ticket)
    ensures var t, now, pol := turns[n].ticket, turns[n].now, turns[n].pol;
            var fl, st := ms[n].pending[t], Runs.Run(PublicTrace(ms, turns, env, n), env.cfg);
            var q := Query(st.entries, IndexRequest(fl.req, fl.inp), now, TtlFor(env.cfg, pol, fl.req.tenant));
            && t in ms[n + 1].pending
            && (LookStep(fl.phase, q, st.stats, env.cfg.ranker, ms[n].rep.objs, pol.IsLFU(fl.req.tenant), ms[n + 1].pending[t].phase) <==>
                !Blinded(ms[n], turns[n], env))
            && (Blinded(ms[n], turns[n], env) ==> ms[n + 1].pending[t].phase == Found(LookupResult([], UnknownTenant, map[])))
  {
    hide Next, WellKept, LookStep, Public, PublicStats, EntriesOf, OnlyReserved, TtlFor, PublicTrace, Runs.Run;
    var t := turns[n].ticket;
    var fl := ms[n].pending[t];
    LookAgainNext(ms[n], turns[n], ms[n + 1], env);
    PendingIsPublic(ms, turns, env, t, n);
    LookPublic(fl.phase, Ask(ms[n].rep, fl, turns[n].now, turns[n].pol, env.cfg), ms[n].rep.stats, env.cfg.ranker, ms[n].rep.objs,
               turns[n].pol.IsLFU(fl.req.tenant), ms[n + 1].pending[t].phase, env.cfg.reserved);
    PublicStateSeesNoProbe(ms, turns, env, n);
    StatePublic(ms[n].rep, env.cfg.reserved);
  }

  lemma DeliverTurn(m: Moment, turn: Turn, m': Moment, env: Env)
    requires Next(m, turn, m', env) && turn.Deliver? && Ready(m, turn.ticket)
    ensures DeliverNext(m, turn.ticket, turn.pol, m', env)
  {
    hide LookNext, DeliverNext, Moves;
  }

  /** Every delivery is decided by its result and the run of the public turns. */
  lemma DeliveryIsPublic(ms: seq<Moment>, turns: seq<Turn>, env: Env, n: nat)
    requires History(ms, turns, env) && n < |turns| && turns[n].Deliver? && Ready(ms[n], turns[n].ticket)
    ensures var t, pol := turns[n].ticket, turns[n].pol;
            && |ms[n + 1].answers| == |ms[n].answers| + 1 && ms[n + 1].answers[|ms[n].answers|].Replied?
            && Response.Delivered(ms[n + 1].answers[|ms[n].answers|].reply, ResultOf(ms[n], t, pol), ms[n].pending[t].req,
                                  ms[n].pending[t].inp, pol, Runs.Run(PublicTrace(ms, turns, env, n), env.cfg).entries, env.digest)
  {
    hide Next, WellKept, Response.Delivered, Public, PublicStats, EntriesOf, PublicTrace, Runs.Run, Used;
    var t := turns[n].ticket;
    DeliverTurn(ms[n], turns[n], ms[n + 1], env);
    PendingIsPublic(ms, turns, env, t, n);
    DeliveredPublic(ms[n + 1].answers[|ms[n].answers|].reply, ResultOf(ms[n], t, turns[n].pol), ms[n].pending[t].req,
                    ms[n].pending[t].inp, turns[n].pol, EntriesOf(ms[n].rep), env.digest, env.cfg.reserved);
    PublicStateSeesNoProbe(ms, turns, env, n);
    StatePublic(ms[n].rep, env.cfg.reserved);
  }
}
