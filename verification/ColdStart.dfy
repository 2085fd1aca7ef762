/** The one thing a probe shows, as a history: on a server that holds nothing yet, a
    chain lookup during a probe run is told UNKNOWN_TENANT, and without the run it is
    given no hint (internal/index/lookup.go:726-742, internal/server/probe.go:276-289).
 */
module ColdStart {
  import opened Domain
  import opened Policy
  import opened IndexModel
  import opened LookupModel
  import opened Ranking
  import opened Runs
  import opened Isolation
  import opened Bookkeeping
  import opened Lookup
  import opened Routing
  import opened Response
  import opened Probe
  import opened Histories
  import opened Noninterference
  import opened Twins
  import opened Server

  /** A probe writes its entry; a lookup arrives, matches nothing, is diagnosed and
      delivered. */
  function ColdTurns(probe: ProbeRequest, t: Ticket, req: RouteRequest, now: int, pol: Policies): seq<Turn> {
    [Begin(probe, now, now, pol), Arrive(t, req, pol, Never), LookAgain(t, now, pol), LookAgain(t, now, pol), Deliver(t, pol)]
  }

  function QuietTurns(t: Ticket, req: RouteRequest, now: int, pol: Policies): seq<Turn> {
    [IDLE, Arrive(t, req, pol, Never), LookAgain(t, now, pol), LookAgain(t, now, pol), Deliver(t, pol)]
  }

  /** A well-formed chain request that gets as far as the index. */
  ghost predicate ReachesIndex(req: RouteRequest, pol: Policies, env: Env) {
    && ShortAnswer(req, pol, env.chain, Never).None?
    && var inp := ResolveChain(req, pol.ChainMatchingEnabled(req.tenant), env.chain);
       inp.Some? && var ireq := IndexRequest(req, inp.value); !Unkeyed(ireq) && !MalformedChain(ireq) && ChainBearing(ireq)
  }

  lemma NothingMatches(q: Query, stats: map<StatsKey, StatEntry>, ranker: RankerConfig)
    requires q.es == map[]
    ensures LookupF(q, stats, ranker) == map[]
  {
    assert ServingSet(q) == {};
  }

  /** No public turn of these stores anything. */
  lemma NothingPublic(ms: seq<Moment>, env: Env, probe: ProbeRequest, t: Ticket, req: RouteRequest, now: int, pol: Policies, n: nat)
    requires |ms| == 6 && n <= 5
    ensures PublicTrace(ms, ColdTurns(probe, t, req, now, pol), env, n) == []
  {
    hide OpAt;
    var turns := ColdTurns(probe, t, req, now, pol);
    forall i | 0 <= i < 5 ensures PublicAt(ms[i], turns[i], env) == [] {
      QuietAt(ms[i], turns[i], env);
    }
    if n > 0 {
      NothingPublic(ms, env, probe, t, req, now, pol, n - 1);
    }
  }

  lemma QuietAt(m: Moment, turn: Turn, env: Env)
    requires turn.Begin? || turn.Arrive? || turn.LookAgain? || turn.Deliver?
    ensures PublicAt(m, turn, env) == []
  {}

  lemma PublicEmpty(ms: seq<Moment>, turns: seq<Turn>, env: Env, n: nat)
    requires History(ms, turns, env) && n < |ms| && PublicTrace(ms, turns, env, n) == []
    ensures Public(EntriesOf(ms[n].rep), env.cfg.reserved) == map[]
  {
    hide Next, Fresh, PublicTrace, EntriesOf, Public, PublicStats;
    PublicStateSeesNoProbe(ms, turns, env, n);
    StatePublic(ms[n].rep, env.cfg.reserved);
  }

  lemma BeginNext(m: Moment, turn: Turn, n: Moment, env: Env)
    requires Next(m, turn, n, env) && turn.Begin? && m.probes == map[] && turn.probe.hashScheme != "" && PROBE_TENANT in env.cfg.reserved
    ensures EntriesOf(n.rep) != map[] && n.pending == m.pending
  {
    hide Sound, IngestF, Inherits, LookNext, DeliverNext, ResolveChain, ShortAnswer, Checked, EntriesOf;
    ProbeStored(StateOf(m.rep), turn.probe, env.sha, turn.clock, turn.now, turn.pol, env.cfg);
  }

  lemma AskNext(m: Moment, turn: Turn, n: Moment, env: Env)
    requires Next(m, turn, n, env) && (turn.Arrive? || turn.LookAgain?)
    ensures n.rep == m.rep
  {
    hide Moves, LookStep, DeliverNext, ResolveChain, ShortAnswer, Checked;
  }

  /** The lookup goes astray. */
  lemma GoesAstray(ms: seq<Moment>, env: Env, probe: ProbeRequest, t: Ticket, req: RouteRequest, now: int, pol: Policies)
    requires History(ms, ColdTurns(probe, t, req, now, pol), env) && probe.hashScheme != "" && ReachesIndex(req, pol, env)
    ensures t in Astray(ms, ColdTurns(probe, t, req, now, pol), env, 4)
  {
    hide Next, WellKept, EntriesOf, Public, LookStep;
    var turns := ColdTurns(probe, t, req, now, pol);
    BeginNext(ms[0], turns[0], ms[1], env);
    ArriveNext(ms[1], turns[1], ms[2], env);
    AskNext(ms[1], turns[1], ms[2], env);
    AskNext(ms[2], turns[2], ms[3], env);
    assert ms[2].pending[t].phase == Matching;
    FirstLook(ms, env, probe, t, req, now, pol);
    NothingPublic(ms, env, probe, t, req, now, pol, 3);
    PublicEmpty(ms, turns, env, 3);
    assert Blinded(ms[3], turns[3], env);
  }

  lemma FirstLook(ms: seq<Moment>, env: Env, probe: ProbeRequest, t: Ticket, req: RouteRequest, now: int, pol: Policies)
    requires History(ms, ColdTurns(probe, t, req, now, pol), env) && ReachesIndex(req, pol, env)
    requires t in ms[2].pending && ms[2].pending[t].req == req && ms[2].pending[t].phase == Matching
    requires Some(ms[2].pending[t].inp) == ResolveChain(req, pol.ChainMatchingEnabled(req.tenant), env.chain)
    ensures t in ms[3].pending && ms[3].pending[t].phase == Missed
  {
    hide Next, Fresh, EntriesOf, Public, PublicTrace, LookupF, HitsF, Lists, BestFirst, TtlFor, ResolveChain, ShortAnswer;
    var turns := ColdTurns(probe, t, req, now, pol);
    var fl := ms[2].pending[t];
    NothingPublic(ms, env, probe, t, req, now, pol, 2);
    LookIsPublic(ms, turns, env, 2);
    var q := Query(map[], IndexRequest(fl.req, fl.inp), now, TtlFor(env.cfg, pol, fl.req.tenant));
    NothingMatches(q, map[], env.cfg.ranker);
  }

  lemma NoAffinity(reply: Reply, result: LookupResult, req: RouteRequest, inp: Inputs, pol: Policies, digest: string -> nat)
    requires Response.Delivered(reply, result, req, inp, pol, map[], digest)
    ensures reply.reason != AFFINITY_HINT
  {
    var none: Entries := map[];
    assert Serving(none.Keys, ScopeKey(req.tenant, req.model, req.hashScheme)) == {};
    hide Serving;
  }

  /** The quiet server stores nothing to pick from. */
  lemma QuietReply(ms: seq<Moment>, ms': seq<Moment>, env: Env, probe: ProbeRequest, t: Ticket, req: RouteRequest, now: int, pol: Policies)
    requires AreTwins(ms, ColdTurns(probe, t, req, now, pol), ms', QuietTurns(t, req, now, pol), env) && Ready(ms'[4], t)
    ensures ReplyAt(ms'[4], ms'[5]).Some? && ReplyAt(ms'[4], ms'[5]).value.reason != AFFINITY_HINT
  {
    hide Next, Fresh, Response.Delivered, Names, Astray, Ops, PublicTrace, Used, Alike;
    var turns, turns' := ColdTurns(probe, t, req, now, pol), QuietTurns(t, req, now, pol);
    TwinsAreAlike(ms, turns, ms', turns', env, 4);
    NothingPublic(ms, env, probe, t, req, now, pol, 4);
    StoredIsRun(ms', turns', env, 4);
    DeliverTurn(ms'[4], turns'[4], ms'[5], env);
    NoAffinity(ms'[5].answers[|ms'[4].answers|].reply, ResultOf(ms'[4], t, pol), ms'[4].pending[t].req, ms'[4].pending[t].inp, pol, env.digest);
  }

  lemma AstrayIsReady(m: Moment, m': Moment, rho: Renaming, astray: set<Ticket>, env: Env, t: Ticket)
    requires Alike(m, m', rho, astray, env) && t in astray
    ensures Ready(m', t)
  {
    hide Named, SamePublic, SameDue;
  }

  /** So the two replies differ. */
  lemma RepliesDiffer(ms: seq<Moment>, ms': seq<Moment>, env: Env, probe: ProbeRequest, t: Ticket, req: RouteRequest, now: int, pol: Policies)
    requires AreTwins(ms, ColdTurns(probe, t, req, now, pol), ms', QuietTurns(t, req, now, pol), env)
    requires probe.hashScheme != "" && ReachesIndex(req, pol, env)
    ensures ReplyAt(ms[4], ms[5]) == Some(Reply(UNKNOWN_TENANT, []))
    ensures ReplyAt(ms'[4], ms'[5]).Some? && ReplyAt(ms'[4], ms'[5]).value.reason == NO_HINT
  {
    hide Next, Fresh, ReachesIndex, Astray, ReplyAt, Names, Alike;
    var turns, turns' := ColdTurns(probe, t, req, now, pol), QuietTurns(t, req, now, pol);
    GoesAstray(ms, env, probe, t, req, now, pol);
    TwinsAreAlike(ms, turns, ms', turns', env, 4);
    AstrayIsReady(ms[4], ms'[4], Names(ms, ms', 4), Astray(ms, turns, env, 4), env, t);
    QuietReply(ms, ms', env, probe, t, req, now, pol);
    TwinsReplyAlike(ms, turns, ms', turns', env, 4);
  }

  const REQUEST := RouteRequest("t", "m", "s", "", ["b"], [1], "", 0, [], NoPrompt, 0)
  const PROBE := ProbeRequest("backend", "m", "s")

  lemma RequestReachesIndex(env: Env)
    ensures ReachesIndex(REQUEST, NO_POLICY, env)
  {}

  /** Two servers, one of which is probed, and one request to each. */
  method Witness(ttl: int, ranker: RankerConfig, chain: Fingerprint, digest: string -> nat, sha: string -> string)
      returns (ghost env: Env, ghost ms: seq<Moment>, ghost ms': seq<Moment>)
    ensures AreTwins(ms, ColdTurns(PROBE, 0, REQUEST, 1, NO_POLICY), ms', QuietTurns(0, REQUEST, 1, NO_POLICY), env)
    ensures ReplyAt(ms[4], ms[5]) == Some(Reply(UNKNOWN_TENANT, []))
    ensures ReplyAt(ms'[4], ms'[5]).Some? && ReplyAt(ms'[4], ms'[5]).value.reason == NO_HINT
  {
    hide Next, Fresh, WellKept, ReplyAt, ReachesIndex, Names;
    var probed := new Server(ttl, 0, ranker, chain, digest, sha);
    var quiet := new Server(ttl, 0, ranker, chain, digest, sha);
    env := probed.env;
    ms := probed.Serve(ColdTurns(PROBE, 0, REQUEST, 1, NO_POLICY));
    ms' := quiet.Serve(QuietTurns(0, REQUEST, 1, NO_POLICY));
    RequestReachesIndex(env);
    RepliesDiffer(ms, ms', env, PROBE, 0, REQUEST, 1, NO_POLICY);
  }
}
