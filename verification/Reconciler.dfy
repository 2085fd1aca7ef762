/** Reconcile passes of one CacheBackend as state-machine steps
    (internal/controller/cachebackend_status.go:157-351, 668-688,
    internal/controller/cachebackend_serverless.go:53-158, 190-333, 343-384).
    A pass reads the world, rewrites the status and tries to persist it; when the
    patch fails the status is rolled back. The theorems are about every sequence
    of passes, with arbitrary observations, clocks and patch failures.
 */
module Reconciler {
  import opened Domain
  import opened Readiness

  /** The persisted status, as far as the gates read or write it. `remoteStorage`
      says that the remote-storage status is present. */
  datatype Status = Status(ready: Option<Condition>, degraded: Option<Condition>, progressing: Option<Condition>,
                           probe: Option<Condition>, remoteStorage: bool,
                           firstKVEventAt: Option<int>, firstAvailableAt: Option<int>)

  const FRESH := Status(None, None, None, None, false, None, None)

  /** What one pass runs on. `event` is the poller's current last event time,
      `kernelFails` a strict kernel-check failure, `others` whether the pass changes
      status fields that are not modelled, `patched` whether a status patch goes
      through. */
  datatype Pass =
    | Managed(spec: Spec, dep: Deployment, endpoint: bool, connector: Connector, event: Option<int>, kernelFails: bool,
              client: Client, now: int, others: bool, patched: bool)
    | Serverless(spec: Spec, eventsOnly: bool, connector: Connector, event: Option<int>, kernelFails: bool, now: int,
               others: bool, patched: bool)
    | External(spec: Spec, accepted: Condition, connector: Connector, others: bool, patched: bool)
    | Unmanaged(cleaned: bool, others: bool, patched: bool)

  /** The endpoint check of an external backend has one of three outcomes. */
  predicate WellFormed(p: Pass) {
    p.External? ==> p.accepted in {Condition(IsFalse, ExternalEndpointMissing), Condition(IsFalse,
    ExternalEndpointInvalid),
                                   Condition(IsTrue, ExternalEndpointAccepted)}
  }

  function ReasonOf(c: Option<Condition>): Option<Reason> {
    if c.Some? then Some(c.value.reason) else None
  }

  function LatchEvent(s: Status, event: Option<int>): Option<int> {
    if s.firstKVEventAt.Some? then s.firstKVEventAt else event
  }

  function KernelReason(fails: bool): Option<Reason> {
    if fails then Some(EngineKernelDegraded) else None
  }

  // ---- The managed pass ----

  function ManagedUpstream(s: Status, p: Pass): Gate
    requires p.Managed?
  {
    var base := ManagedBase(p.spec, p.dep, p.endpoint, p.connector);
    var anchor := if s.firstAvailableAt.Some? then s.firstAvailableAt else if base.verdict.IsTrue? then Some(p.now) else None;
    EvaluateKVEvents(p.spec, LatchEvent(s, p.event).Some?, ReasonOf(s.ready), base, anchor, p.now, false)
  }

  function ManagedProbe(s: Status, last: Option<int>, p: Pass, rateLimit: int): ProbeVerdict
    requires p.Managed?
  {
    EvaluateProbe(p.spec, s.probe, ManagedUpstream(s, p).ready, p.client, last, rateLimit, p.now)
  }

  function ManagedStatus(s: Status, last: Option<int>, p: Pass, rateLimit: int): Status
    requires p.Managed?
  {
    var base := ManagedBase(p.spec, p.dep, p.endpoint, p.connector);
    var v := ManagedProbe(s, last, p, rateLimit);
    var gate := Downgrade(Downgrade(ManagedUpstream(s, p), v.downgrade), KernelReason(p.kernelFails));
    Status(Some(gate.ready), Some(gate.degraded), Some(ProgressingFromReady(gate.ready)),
           if v.write.Some? then v.write else if v.remove then None else s.probe,
           p.spec.typed && p.spec.storage,
           LatchEvent(s, p.event),
           if s.firstAvailableAt.None? && base.verdict.IsTrue? then Some(p.now) else s.firstAvailableAt)
  }

  // ---- The serverless pass ----

  function ServerlessBase(p: Pass): Condition
    requires p.Serverless?
  {
    if p.eventsOnly then Condition(IsTrue, EventsOnlyActive)
    else ConnectorReadiness(p.spec, p.connector, Condition(IsTrue, HostOnlyActive))
  }

  function ServerlessStatus(s: Status, p: Pass): Status
    requires p.Serverless?
  {
    var base := ServerlessBase(p);
    var anchor := if s.firstAvailableAt.Some? && !s.remoteStorage then s.firstAvailableAt else Some(p.now);
    var gate := Downgrade(EvaluateKVEvents(p.spec, LatchEvent(s, p.event).Some?, ReasonOf(s.ready), base, anchor, p.now, s.remoteStorage),
                          KernelReason(p.kernelFails && !p.eventsOnly));
    var canAnchor := p.eventsOnly || !p.spec.typed || base.verdict.IsTrue?;
    Status(Some(gate.ready), Some(gate.degraded), Some(ProgressingFromReady(gate.ready)), None,
           !p.eventsOnly && p.spec.typed && p.spec.storage,
           LatchEvent(s, p.event),
           if s.remoteStorage && !canAnchor then None
           else if canAnchor && (s.firstAvailableAt.None? || s.remoteStorage) then Some(p.now)
           else s.firstAvailableAt)
  }

  // ---- External and unmanaged passes ----

  function ExternalStatus(s: Status, p: Pass): Status
    requires p.External?
  {
    var remote := if p.accepted.verdict.IsTrue? then Condition(IsTrue, RemoteStorageReady) else p.accepted;
    var ready := if p.spec.typed then ConnectorReadiness(p.spec, p.connector, remote) else p.accepted;
    s.(ready := Some(ready), degraded := None, progressing := Some(ProgressingFromReady(ready)), probe := None,
       remoteStorage := p.spec.typed && p.spec.storage)
  }

  function UnmanagedStatus(s: Status): Status {
    FRESH.(firstKVEventAt := s.firstKVEventAt)
  }

  // ---- One pass ----

  /** The persisted status and the rate limiter's last committed call. */
  datatype World = World(status: Status, last: Option<int>)

  /** A status without any change needs no patch and cannot fail to persist. */
  predicate Persists(s: Status, s': Status, others: bool, patched: bool) {
    patched || (s' == s && !others)
  }

  function Step(w: World, p: Pass, rateLimit: int): World {
    match p
    case Managed(_, _, _, _, _, _, _, _, _, _) =>
      var s' := ManagedStatus(w.status, w.last, p, rateLimit);
      if !Persists(w.status, s', p.others, p.patched) then w
      else World(s', if ManagedProbe(w.status, w.last, p, rateLimit).commit then Some(p.now) else w.last)
    case Serverless(_, _, _, _, _, _, _, _) => World(if p.patched then ServerlessStatus(w.status, p) else w.status, None)
    case External(_, _, _, _, _) => World(if p.patched then ExternalStatus(w.status, p) else w.status, None)
    case Unmanaged(_, _, _) =>
      if !p.cleaned then w else World(if p.patched then UnmanagedStatus(w.status) else w.status, None)
  }

  function Run(w: World, ps: seq<Pass>, rateLimit: int): World {
    if ps == [] then w else Step(Run(w, ps[..|ps| - 1], rateLimit), ps[|ps| - 1], rateLimit)
  }

  // ---- When a backend is Ready, in the terms of what a pass observes ----

  /** The Deployment wants replicas, has seen its current generation, and has as many
      updated and available. */
  predicate RolledOut(dep: Deployment) {
    var want := if dep.replicas.Some? then dep.replicas.value else 1;
    want != 0 && dep.observedGeneration >= dep.generation && dep.updated >= want && dep.available >= want
  }

  /** The connector reported healthy; for remote storage that must not fail open, the
      storage is there too. */
  predicate ConnectorUp(spec: Spec, connector: Connector, storageUp: bool) {
    connector.Observed? && connector.verdict.IsTrue? && (spec.storage && !spec.failOpen ==> storageUp)
  }

  /** What carries the backend is up, before any gate. */
  predicate Carried(p: Pass) {
    match p
    case Managed(spec, dep, endpoint, connector, _, _, _, _, _, _) =>
      if spec.typed then ConnectorUp(spec, connector, endpoint && RolledOut(dep)) else RolledOut(dep)
    case Serverless(spec, eventsOnly, connector, _, _, _, _, _) =>
      eventsOnly || !spec.typed || ConnectorUp(spec, connector, true)
    case External(spec, accepted, connector, _, _) =>
      if spec.typed then ConnectorUp(spec, connector, accepted.verdict.IsTrue?) else accepted.verdict.IsTrue?
    case Unmanaged(_, _, _) => false
  }

  /** The event gate lets the backend through: it is off, or an event was ever seen. */
  predicate EventsIn(s: Status, p: Pass)
    requires p.Managed? || p.Serverless?
  {
    !p.spec.requireKVEvents || s.firstKVEventAt.Some? || p.event.Some?
  }

  predicate StageFine(o: StageOutcome) { o == StageOk || o == StageSkipped }

  /** A call may be made, and one that fails anywhere, or a failure still published
      when none was answered, holds Ready back. */
  predicate HeldByProbe(w: World, p: Pass, rateLimit: int)
    requires p.Managed?
  {
    && p.client.Configured? && !p.spec.skipProbe
    && var due := w.last.None? || p.now - w.last.value >= rateLimit;
       if due && p.client.call.Replied? then
         var r := p.client.call.reply; !StageFine(r.ingest) || !StageFine(r.routing) || !StageFine(r.t2)
       else w.status.probe.Some? && w.status.probe.value.verdict == IsFalse
  }

  /** A finished rollout with too few replicas available. */
  predicate ShortOfReplicas(p: Pass)
    requires p.Managed?
  {
    var want := if p.dep.replicas.Some? then p.dep.replicas.value else 1;
    !p.spec.typed && want != 0 && p.dep.observedGeneration >= p.dep.generation && p.dep.updated >= want > p.dep.available
  }

  lemma BaseIsCarried(p: Pass)
    requires p.Managed?
    ensures ManagedBase(p.spec, p.dep, p.endpoint, p.connector).verdict.IsTrue? <==> Carried(p)
  {}

  /** A managed backend is published Ready exactly when what carries it is up, the
      event gate lets it through, no probe failure holds it back and no strict kernel
      failure does; with the event gate on it says that events were observed. */
  lemma ManagedReadyExactly(w: World, p: Pass, rateLimit: int)
    requires p.Managed? && p.patched
    ensures var s := Step(w, p, rateLimit).status;
            && s.ready.Some?
            && (s.ready.value.verdict.IsTrue? <==>
                Carried(p) && EventsIn(w.status, p) && !HeldByProbe(w, p, rateLimit) && !p.kernelFails)
            && (s.ready.value.verdict.IsTrue? ==>
                  s.ready.value.reason == if p.spec.requireKVEvents then KVEventsObserved
                                          else if p.spec.typed then ConnectorReady else BackendReady)
  {
    BaseIsCarried(p);
    if Carried(p) {
      BaseReason(p);
    }
    hide ManagedBase, Carried;
  }

  lemma BaseReason(p: Pass)
    requires p.Managed? && Carried(p)
    ensures ManagedBase(p.spec, p.dep, p.endpoint, p.connector).reason == if p.spec.typed then ConnectorReady else BackendReady
  {}

  lemma ServerlessReadyExactly(w: World, p: Pass, rateLimit: int)
    requires p.Serverless? && p.patched
    ensures var s := Step(w, p, rateLimit).status;
            && s.ready.Some? && s.probe.None?
            && (s.ready.value.verdict.IsTrue? <==> Carried(p) && EventsIn(w.status, p) && !(p.kernelFails && !p.eventsOnly))
            && (s.ready.value.verdict.IsTrue? && p.spec.requireKVEvents ==> s.ready.value.reason == KVEventsObserved)
  {}

  /** When a serverless pass waits for the first event, and when it says none came. The
      window is reopened by remote-storage status an earlier mode left behind. */
  lemma ServerlessAwaitingExactly(w: World, p: Pass, rateLimit: int)
    requires p.Serverless? && p.patched
    ensures var s, kept := Step(w, p, rateLimit).status, !w.status.remoteStorage;
            var gated := Carried(p) && !EventsIn(w.status, p) && !(p.kernelFails && !p.eventsOnly);
            var late := kept && (Says(w.status, NoKVEventsObserved) || Breached(w.status, p.now, FirstEventTimeout(p.spec)));
            && (Says(s, AwaitingFirstKVEvent) <==> gated && !late)
            && (Says(s, NoKVEventsObserved) <==> gated && late)
  {}

  lemma ExternalReadyExactly(w: World, p: Pass, rateLimit: int)
    requires p.External? && p.patched
    ensures var s := Step(w, p, rateLimit).status;
            s.ready.Some? && s.probe.None? && s.degraded.None? && (s.ready.value.verdict.IsTrue? <==> Carried(p))
  {}

  /** Why a managed backend is not Ready: a strict kernel failure first, else what
      carries it. */
  lemma ManagedNotReadyBecause(w: World, p: Pass, rateLimit: int)
    requires p.Managed? && p.patched && (p.kernelFails || !Carried(p))
    ensures var ready, want := Step(w, p, rateLimit).status.ready, if p.dep.replicas.Some? then p.dep.replicas.value else 1;
            var rolling := want != 0 && (p.dep.observedGeneration < p.dep.generation || p.dep.updated < want);
            && ready.Some? && !ready.value.verdict.IsTrue?
            && (p.kernelFails ==> ready.value == Condition(IsFalse, EngineKernelDegraded))
            && (!p.kernelFails && !p.spec.typed ==>
                  ready.value == Condition(IsFalse, if want == 0 then ScaledToZero else if rolling then RolloutInProgress else ReplicasUnavailable))
            && (!p.kernelFails && p.spec.typed ==>
                  ready.value == if p.connector.Unobserved? then Condition(IsUnknown, ConnectorUnverified)
                                 else if !p.connector.verdict.IsTrue? then Condition(p.connector.verdict, ConnectorSays(p.connector.text))
                                 else if rolling then Condition(IsUnknown, RemoteStoragePending)
                                 else Condition(IsFalse, RemoteStorageUnavailable))
  {}

  /** Remote-storage status is present exactly for typed backends with storage, outside
      events-only mode. */
  lemma RemoteStatusExactly(w: World, p: Pass, rateLimit: int)
    requires !p.Unmanaged? && p.patched
    ensures Step(w, p, rateLimit).status.remoteStorage <==> p.spec.typed && p.spec.storage && !(p.Serverless? && p.eventsOnly)
  {
    hide EvaluateKVEvents, EvaluateProbe, ManagedBase, ProgressingFromReady, ConnectorReadiness;
  }

  /** The event seen is latched, once; so is the first moment the backend was up. */
  lemma LatchesExactly(w: World, p: Pass, rateLimit: int)
    requires (p.Managed? || p.Serverless?) && p.patched
    ensures var s := Step(w, p, rateLimit).status;
            && s.firstKVEventAt == (if w.status.firstKVEventAt.Some? then w.status.firstKVEventAt else p.event)
            && s.firstAvailableAt == (if w.status.firstAvailableAt.Some? && (p.Managed? || !w.status.remoteStorage) then
                                        w.status.firstAvailableAt
                                      else if Carried(p) then Some(p.now) else None)
  {
    if p.Managed? {
      BaseIsCarried(p);
      hide ManagedBase, Carried;
    }
  }

  /** Degraded is published exactly for replicas missing after a rollout and for events
      missing after the window; Progressing exactly while rolling out or waiting for
      the first event. */
  lemma DegradedExactly(w: World, p: Pass, rateLimit: int)
    requires p.Managed? && p.patched && ProbeReasons(w.status)
    ensures var s := Step(w, p, rateLimit).status;
            var late := Carried(p) && !EventsIn(w.status, p)
                        && (Says(w.status, NoKVEventsObserved) || Breached(w.status, p.now, FirstEventTimeout(p.spec)));
            && s.degraded.Some? && (s.degraded.value.verdict.IsTrue? <==> ShortOfReplicas(p) || late)
            && s.progressing.Some?
            && (s.progressing.value.verdict.IsTrue? <==> Says(s, RolloutInProgress) || Says(s, AwaitingFirstKVEvent))
  {
    BaseIsCarried(p);
    MissingReplicas(p);
    DowngradeIsPlain(w, p, rateLimit);
    BaseIsPlain(p.spec, p.dep, p.endpoint, p.connector);
    hide ManagedBase, Carried, ShortOfReplicas;
  }

  lemma MissingReplicas(p: Pass)
    requires p.Managed?
    ensures ManagedBase(p.spec, p.dep, p.endpoint, p.connector) == Condition(IsFalse, ReplicasUnavailable) <==> ShortOfReplicas(p)
  {}

  // ---- The first-event latch ----

  /** With the latch set, Ready never says that events are missing. */
  predicate Latched(s: Status) {
    s.firstKVEventAt.Some? ==> s.ready.Some? ==> !IsWaiting(s.ready.value.reason)
  }

  /** A failed probe condition never carries a reason of the KV-event gate. */
  predicate ProbeReasons(s: Status) {
    s.probe.Some? ==> !IsWaiting(s.probe.value.reason) && s.probe.value.reason != KVEventsObserved
  }

  lemma LatchStep(w: World, p: Pass, rateLimit: int)
    requires Latched(w.status) && ProbeReasons(w.status) && WellFormed(p)
    ensures var w' := Step(w, p, rateLimit);
            && Latched(w'.status) && ProbeReasons(w'.status)
            && (w.status.firstKVEventAt.Some? ==> w'.status.firstKVEventAt == w.status.firstKVEventAt)
  {}

  lemma {:induction false} LatchHolds(w: World, ps: seq<Pass>, rateLimit: int)
    requires Latched(w.status) && ProbeReasons(w.status)
    requires forall i :: 0 <= i < |ps| ==> WellFormed(ps[i])
    ensures var w' := Run(w, ps, rateLimit);
            && Latched(w'.status) && ProbeReasons(w'.status)
            && (w.status.firstKVEventAt.Some? ==> w'.status.firstKVEventAt == w.status.firstKVEventAt)
  {
    hide Step, Latched, ProbeReasons, WellFormed;
    if ps != [] {
      LatchHolds(w, ps[..|ps| - 1], rateLimit);
      LatchStep(Run(w, ps[..|ps| - 1], rateLimit), ps[|ps| - 1], rateLimit);
    }
  }

  lemma {:induction false} RunAppend(w: World, a: seq<Pass>, b: seq<Pass>, rateLimit: int)
    ensures Run(w, a + b, rateLimit) == Run(Run(w, a, rateLimit), b, rateLimit)
  {
    if b == [] {
      assert a + b == a;
    } else {
      RunAppend(w, a, b[..|b| - 1], rateLimit);
      assert (a + b)[..|a + b| - 1] == a + b[..|b| - 1];
    }
  }

  /** From a fresh backend, over passes of every mode: once an event has been
      latched, no later status says that events are awaited or missing. */
  lemma EventsNeverForgotten(a: seq<Pass>, b: seq<Pass>, last: Option<int>, rateLimit: int)
    requires forall i :: 0 <= i < |a + b| ==> WellFormed((a + b)[i])
    requires Run(World(FRESH, last), a, rateLimit).status.firstKVEventAt.Some?
    ensures var s := Run(World(FRESH, last), a + b, rateLimit).status;
            s.firstKVEventAt.Some? && (s.ready.Some? ==> !IsWaiting(s.ready.value.reason))
  {
    var w := World(FRESH, last);
    forall i | 0 <= i < |a| ensures WellFormed(a[i]) { assert a[i] == (a + b)[i]; }
    forall i | 0 <= i < |b| ensures WellFormed(b[i]) { assert b[i] == (a + b)[|a| + i]; }
    RunAppend(w, a, b, rateLimit);
    LatchHolds(w, a, rateLimit);
    LatchHolds(Run(w, a, rateLimit), b, rateLimit);
  }

  // ---- The first-event timeout ----

  /** The latched window has run out. */
  predicate Breached(s: Status, now: int, timeout: int) {
    s.firstAvailableAt.Some? && now - s.firstAvailableAt.value >= timeout
  }

  predicate Says(s: Status, r: Reason) {
    s.ready.Some? && s.ready.value.reason == r
  }

  /** The gate decides on this backend at all: it is on, the workload is ready and
      no strict kernel failure masks it. */
  predicate Gated(p: Pass) {
    p.Managed? && p.spec.requireKVEvents && !p.kernelFails && Carried(p)
  }

  predicate SeenAny(s: Status, p: Pass) {
    p.Managed? && (s.firstKVEventAt.Some? || p.event.Some?)
  }

  /** The gate's reasons come from the gate alone. */
  predicate IsPlain(r: Reason) {
    !IsWaiting(r) && r != KVEventsObserved
  }

  lemma BaseIsPlain(spec: Spec, dep: Deployment, endpoint: bool, connector: Connector)
    ensures IsPlain(ManagedBase(spec, dep, endpoint, connector).reason)
  {}

  lemma DowngradeIsPlain(w: World, p: Pass, rateLimit: int)
    requires p.Managed? && ProbeReasons(w.status)
    ensures var v := ManagedProbe(w.status, w.last, p, rateLimit);
            v.downgrade.Some? ==> IsPlain(v.downgrade.value) && ManagedUpstream(w.status, p).ready.verdict.IsTrue?
  {
    hide ManagedUpstream;
  }

  /** When exactly a managed pass publishes each verdict of the gate. */
  lemma AwaitingExactly(w: World, p: Pass, rateLimit: int)
    requires p.Managed? && p.patched && ProbeReasons(w.status)
    ensures Says(Step(w, p, rateLimit).status, AwaitingFirstKVEvent) <==>
            && Gated(p) && !SeenAny(w.status, p) && !Says(w.status, NoKVEventsObserved)
            && !Breached(w.status, p.now, FirstEventTimeout(p.spec))
    ensures Says(Step(w, p, rateLimit).status, NoKVEventsObserved) <==>
            && Gated(p) && !SeenAny(w.status, p)
            && (Says(w.status, NoKVEventsObserved) || Breached(w.status, p.now, FirstEventTimeout(p.spec)))
    ensures Says(Step(w, p, rateLimit).status, KVEventsObserved) <==>
            Gated(p) && SeenAny(w.status, p) && !HeldByProbe(w, p, rateLimit)
  {
    BaseIsCarried(p);
    ManagedReadyExactly(w, p, rateLimit);
    hide ManagedBase, EvaluateProbe, Carried, HeldByProbe;
    BaseIsPlain(p.spec, p.dep, p.endpoint, p.connector);
    DowngradeIsPlain(w, p, rateLimit);
  }

  /** Managed passes with one timeout and a clock that does not run backwards. */
  ghost predicate Steady(ps: seq<Pass>, start: int, timeout: int) {
    && (forall i :: 0 <= i < |ps| ==> ps[i].Managed? && FirstEventTimeout(ps[i].spec) == timeout && ps[i].now >= start)
    && (forall i, j :: 0 <= i < j < |ps| ==> ps[i].now <= ps[j].now)
  }

  function Clock(ps: seq<Pass>, start: int): int
    requires forall i :: 0 <= i < |ps| ==> ps[i].Managed?
  {
    if ps == [] then start else ps[|ps| - 1].now
  }

  /** A published timeout is a real one: the window has run out. */
  predicate Timed(s: Status, now: int, timeout: int) {
    Says(s, NoKVEventsObserved) ==> Breached(s, now, timeout)
  }

  lemma TimedStep(w: World, p: Pass, rateLimit: int, now: int, timeout: int)
    requires p.Managed? && FirstEventTimeout(p.spec) == timeout && p.now >= now
    requires Timed(w.status, now, timeout) && ProbeReasons(w.status)
    ensures var s' := Step(w, p, rateLimit).status; Timed(s', p.now, timeout) && ProbeReasons(s')
  {}

  lemma BreachedStep(w: World, p: Pass, rateLimit: int, now: int, timeout: int)
    requires p.Managed? && FirstEventTimeout(p.spec) == timeout && p.now >= now && ProbeReasons(w.status)
    requires Breached(w.status, now, timeout) && !Says(w.status, AwaitingFirstKVEvent)
    ensures var s' := Step(w, p, rateLimit).status;
            Breached(s', p.now, timeout) && !Says(s', AwaitingFirstKVEvent) && ProbeReasons(s')
  {}

  lemma {:induction false} TimedThroughout(w: World, ps: seq<Pass>, rateLimit: int, start: int, timeout: int)
    requires Steady(ps, start, timeout) && Timed(w.status, start, timeout) && ProbeReasons(w.status)
    ensures var s := Run(w, ps, rateLimit).status; Timed(s, Clock(ps, start), timeout) && ProbeReasons(s)
  {
    hide Step, Timed, ProbeReasons;
    if ps != [] {
      TimedThroughout(w, ps[..|ps| - 1], rateLimit, start, timeout);
      TimedStep(Run(w, ps[..|ps| - 1], rateLimit), ps[|ps| - 1], rateLimit, Clock(ps[..|ps| - 1], start), timeout);
    }
  }

  lemma {:induction false} BreachedThroughout(w: World, ps: seq<Pass>, rateLimit: int, start: int, timeout: int)
    requires Steady(ps, start, timeout) && ProbeReasons(w.status)
    requires Breached(w.status, start, timeout) && !Says(w.status, AwaitingFirstKVEvent)
    ensures var s := Run(w, ps, rateLimit).status;
            Breached(s, Clock(ps, start), timeout) && !Says(s, AwaitingFirstKVEvent) && ProbeReasons(s)
  {
    hide Step, Breached, ProbeReasons, Says;
    if ps != [] {
      BreachedThroughout(w, ps[..|ps| - 1], rateLimit, start, timeout);
      BreachedStep(Run(w, ps[..|ps| - 1], rateLimit), ps[|ps| - 1], rateLimit, Clock(ps[..|ps| - 1], start), timeout);
    }
  }

  /** Once a managed run has published that no events came in time, it never goes
      back to waiting, through availability flaps, probe and kernel downgrades and
      failed patches. */
  lemma NeverBackToAwaiting(a: seq<Pass>, b: seq<Pass>, last: Option<int>, rateLimit: int, start: int, timeout: int)
    requires Steady(a + b, start, timeout)
    requires Says(Run(World(FRESH, last), a, rateLimit).status, NoKVEventsObserved)
    ensures !Says(Run(World(FRESH, last), a + b, rateLimit).status, AwaitingFirstKVEvent)
  {
    var w := World(FRESH, last);
    assert Steady(a, start, timeout) by {
      forall i | 0 <= i < |a| ensures a[i] == (a + b)[i] {}
    }
    assert Steady(b, Clock(a, start), timeout) by {
      forall i | 0 <= i < |b| ensures b[i] == (a + b)[|a| + i] {}
      if a != [] { assert a[|a| - 1] == (a + b)[|a| - 1]; }
    }
    TimedThroughout(w, a, rateLimit, start, timeout);
    BreachedThroughout(Run(w, a, rateLimit), b, rateLimit, Clock(a, start), timeout);
    RunAppend(w, a, b, rateLimit);
  }

  /** With a timeout that is raised later it can: an availability flap overwrites
      the published reason, and the longer window is then open again. Without the
      flap the published reason still holds the backend back. */
  lemma RaisedTimeoutReopens(w: World, flap: Pass, p: Pass, rateLimit: int)
    requires Says(w.status, NoKVEventsObserved) && w.status.firstKVEventAt.None? && ProbeReasons(w.status)
    requires flap.Managed? && flap.patched && flap.event.None? && !flap.kernelFails
    requires ShortOfReplicas(flap)
    requires p.Managed? && p.patched && p.event.None? && !p.kernelFails && p.spec.requireKVEvents
    requires Carried(p) && !Breached(w.status, p.now, FirstEventTimeout(p.spec))
    ensures Says(Step(Step(w, flap, rateLimit), p, rateLimit).status, AwaitingFirstKVEvent)
    ensures Says(Step(w, p, rateLimit).status, NoKVEventsObserved)
  {
    FlapKeepsAnchor(w, flap, rateLimit);
    AwaitingExactly(Step(w, flap, rateLimit), p, rateLimit);
    AwaitingExactly(w, p, rateLimit);
    hide Step, Carried;
  }

  lemma FlapKeepsAnchor(w: World, flap: Pass, rateLimit: int)
    requires flap.Managed? && flap.patched && flap.event.None? && !flap.kernelFails && ProbeReasons(w.status)
    requires ShortOfReplicas(flap)
    ensures var s' := Step(w, flap, rateLimit).status;
            && Says(s', ReplicasUnavailable) && s'.firstAvailableAt == w.status.firstAvailableAt
            && s'.firstKVEventAt == w.status.firstKVEventAt && ProbeReasons(s')
  {
    MissingReplicas(flap);
    hide ManagedBase, ShortOfReplicas;
  }

  // ---- Sticky probe failure ----

  /** A stage failure is published: the probe condition is False and Ready is not
      True. */
  predicate Failing(s: Status) {
    s.probe.Some? && s.probe.value.verdict.IsFalse? && s.ready.Some? && !s.ready.value.verdict.IsTrue?
  }

  /** The pass makes a call: there is a client, nothing upstream holds Ready back, the
      probe is not bypassed and the last committed call is long enough ago. */
  predicate CallDue(w: World, p: Pass, rateLimit: int) {
    && p.Managed? && p.client.Configured? && !p.spec.skipProbe && Carried(p) && EventsIn(w.status, p)
    && (w.last.None? || p.now - w.last.value >= rateLimit)
  }

  lemma CallsAreDue(w: World, p: Pass, rateLimit: int)
    requires p.Managed?
    ensures Calls(p.spec, ManagedUpstream(w.status, p).ready, p.client, w.last, rateLimit, p.now) <==> CallDue(w, p, rateLimit)
  {
    BaseIsCarried(p);
    hide ManagedBase, Carried;
  }

  /** The pass makes a call and every stage passes. */
  predicate Recovers(w: World, p: Pass, rateLimit: int) {
    && CallDue(w, p, rateLimit) && p.client.call.Replied?
    && StageFine(p.client.call.reply.ingest) && StageFine(p.client.call.reply.routing) && StageFine(p.client.call.reply.t2)
  }

  predicate Probed(p: Pass) {
    p.Managed? && p.client.Configured? && !p.spec.skipProbe
  }

  /** A call with a failed stage is published as failing. */
  lemma FailureIsPublished(w: World, p: Pass, rateLimit: int)
    requires CallDue(w, p, rateLimit) && p.patched && p.client.call.Replied? && !Recovers(w, p, rateLimit)
    ensures Failing(Step(w, p, rateLimit).status) && Step(w, p, rateLimit).last == Some(p.now)
    ensures var r, reason := p.client.call.reply, Step(w, p, rateLimit).status.probe.value.reason;
            && (reason == ProbeIngestFailed <==> r.ingest == StageFailed)
            && (reason == ProbeRoutingFailed <==> r.ingest != StageFailed && r.routing == StageFailed)
            && (reason == ProbeT2Failed <==> r.ingest != StageFailed && r.routing != StageFailed && r.t2 == StageFailed)
  {
    CallsAreDue(w, p, rateLimit);
    hide ManagedUpstream, Carried;
  }

  /** While failing, Ready becomes True in exactly one way. */
  lemma FailingStep(w: World, p: Pass, rateLimit: int)
    requires Failing(w.status) && Probed(p)
    ensures var s' := Step(w, p, rateLimit).status;
            && s'.ready.Some?
            && (s'.ready.value.verdict.IsTrue? <==> p.patched && Recovers(w, p, rateLimit) && !p.kernelFails)
            && (!Recovers(w, p, rateLimit) ==> Failing(s'))
  {
    CallsAreDue(w, p, rateLimit);
    hide ManagedUpstream, Carried;
  }

  /** An outage of the probe endpoint alone never takes Ready away: a backend with
      no published failure is as ready as its workload and events say. */
  lemma OutageIsHarmless(w: World, p: Pass, rateLimit: int)
    requires Probed(p) && p.patched && !p.kernelFails && p.client.call.TransportError? && Sticky(w.status.probe).None?
    ensures Step(w, p, rateLimit).status.ready.Some? &&
            (Step(w, p, rateLimit).status.ready.value.verdict.IsTrue? <==> Carried(p) && EventsIn(w.status, p))
    ensures Step(w, p, rateLimit).last == w.last && Sticky(Step(w, p, rateLimit).status.probe).None?
  {
    ManagedReadyExactly(w, p, rateLimit);
    hide ManagedUpstream, Carried;
  }

  /** Whatever mix of rate limiting, transport errors, upstream flaps and failed
      patches occurs, Ready is not True until a call passes every stage. */
  lemma {:induction false} FailureIsSticky(w: World, ps: seq<Pass>, rateLimit: int)
    requires Failing(w.status)
    requires forall i :: 0 <= i < |ps| ==> Probed(ps[i]) && !Recovers(Run(w, ps[..i], rateLimit), ps[i], rateLimit)
    ensures Failing(Run(w, ps, rateLimit).status)
  {
    hide Step, Failing, Recovers, Probed;
    if ps != [] {
      var before := ps[..|ps| - 1];
      forall i | 0 <= i < |before|
        ensures Probed(before[i]) && !Recovers(Run(w, before[..i], rateLimit), before[i], rateLimit)
      {
        assert before[..i] == ps[..i] && before[i] == ps[i];
      }
      FailureIsSticky(w, before, rateLimit);
      FailingStep(Run(w, before, rateLimit), ps[|ps| - 1], rateLimit);
    }
  }

  // ---- Spacing of committed calls ----

  /** The pass makes a call and records it with the limiter. */
  predicate Committed(w: World, p: Pass, rateLimit: int) {
    && p.Managed? && ManagedProbe(w.status, w.last, p, rateLimit).commit
    && Persists(w.status, ManagedStatus(w.status, w.last, p, rateLimit), p.others, p.patched)
  }

  /** The times of the calls that were committed. */
  function Commits(w: World, ps: seq<Pass>, rateLimit: int): seq<int> {
    if ps == [] then []
    else
      var p, before := ps[|ps| - 1], ps[..|ps| - 1];
      Commits(w, before, rateLimit) + if Committed(Run(w, before, rateLimit), p, rateLimit) then [p.now] else []
  }

  lemma CommitStep(w: World, p: Pass, rateLimit: int)
    requires p.Managed?
    ensures Committed(w, p, rateLimit) ==> w.last.None? || p.now - w.last.value >= rateLimit
    ensures Step(w, p, rateLimit).last == if Committed(w, p, rateLimit) then Some(p.now) else w.last
  {}

  /** A call is committed exactly when it was made, answered and persisted. */
  lemma CommitsExactly(w: World, p: Pass, rateLimit: int)
    requires p.Managed? && p.patched
    ensures Step(w, p, rateLimit).last == if CallDue(w, p, rateLimit) && p.client.call.Replied? then Some(p.now) else w.last
    ensures !CallDue(w, p, rateLimit) && Probed(p) ==> Step(w, p, rateLimit).status.probe == w.status.probe
    ensures Recovers(w, p, rateLimit) ==> Step(w, p, rateLimit).status.probe == Some(Condition(IsTrue, ProbeOK))
    ensures p.client.NotConfigured? ==> Step(w, p, rateLimit).status.probe.None?
    ensures p.client.Configured? && p.spec.skipProbe && Carried(p) && EventsIn(w.status, p) ==>
              Step(w, p, rateLimit).status.probe == Some(Condition(IsTrue, ProbeBypassed))
  {
    CallsAreDue(w, p, rateLimit);
    UpstreamIsIn(w, p);
    hide ManagedUpstream, Carried;
  }

  /** The same pass with a patch that goes through. */
  function Patched(p: Pass): Pass
    requires p.Managed?
  {
    Managed(p.spec, p.dep, p.endpoint, p.connector, p.event, p.kernelFails, p.client, p.now, p.others, true)
  }

  /** When the patch fails nothing is published, and a call is committed only if there
      was nothing to publish. */
  lemma UnpatchedExactly(w: World, p: Pass, rateLimit: int)
    requires p.Managed? && !p.patched
    ensures var w', patched := Step(w, p, rateLimit), Step(w, Patched(p), rateLimit);
            w' == if patched.status == w.status && !p.others then patched else w
  {
    hide EvaluateKVEvents, EvaluateProbe, ManagedBase, ProgressingFromReady;
  }

  lemma UpstreamIsIn(w: World, p: Pass)
    requires p.Managed?
    ensures ManagedUpstream(w.status, p).ready.verdict.IsTrue? <==> Carried(p) && EventsIn(w.status, p)
  {
    BaseIsCarried(p);
    hide ManagedBase, Carried;
  }

  /** Any two committed calls of a managed run are at least the rate limit apart. */
  lemma {:induction false} CommitsAreSpaced(w: World, ps: seq<Pass>, rateLimit: int)
    requires w.last.None? && rateLimit >= 0 && forall i :: 0 <= i < |ps| ==> ps[i].Managed?
    ensures var c := Commits(w, ps, rateLimit);
            && (forall i, j :: 0 <= i < j < |c| ==> c[j] - c[i] >= rateLimit)
            && Run(w, ps, rateLimit).last == if c == [] then None else Some(c[|c| - 1])
  {
    hide Step, Committed;
    if ps != [] {
      var before := ps[..|ps| - 1];
      CommitsAreSpaced(w, before, rateLimit);
      CommitStep(Run(w, before, rateLimit), ps[|ps| - 1], rateLimit);
    }
  }

  // ---- The passes as the reconciler runs them ----

  /** What `updateManagedStatus` does to the status in memory. */
  method MutateManaged(before: Status, last: Option<int>, p: Pass, rateLimit: int) returns (next: Status, commit: bool)
    requires p.Managed?
    ensures next == ManagedStatus(before, last, p, rateLimit) && commit == ManagedProbe(before, last, p, rateLimit).commit
  {
    hide EvaluateKVEvents, EvaluateProbe, ManagedBase, ProgressingFromReady, Downgrade, KernelReason;
    var base := ManagedBase(p.spec, p.dep, p.endpoint, p.connector);
    var anchor := None;
    if before.firstAvailableAt.Some? {
      anchor := before.firstAvailableAt;
    } else if base.verdict.IsTrue? {
      anchor := Some(p.now);
    }
    var seen := before.firstKVEventAt.Some? || p.event.Some?;
    var gate := EvaluateKVEvents(p.spec, seen, ReasonOf(before.ready), base, anchor, p.now, false);
    var verdict := EvaluateProbe(p.spec, before.probe, gate.ready, p.client, last, rateLimit, p.now);
    gate := Downgrade(gate, verdict.downgrade);
    gate := Downgrade(gate, KernelReason(p.kernelFails));
    next := before.(remoteStorage := p.spec.typed && p.spec.storage);
    if next.firstKVEventAt.None? && p.event.Some? {
      next := next.(firstKVEventAt := p.event);
    }
    if next.firstAvailableAt.None? && base.verdict.IsTrue? {
      next := next.(firstAvailableAt := Some(p.now));
    }
    next := next.(ready := Some(gate.ready), degraded := Some(gate.degraded), progressing := Some(ProgressingFromReady(gate.ready)));
    if verdict.write.Some? {
      next := next.(probe := verdict.write);
    } else if verdict.remove {
      next := next.(probe := None);
    }
    commit := verdict.commit;
  }

  /** What `reconcileServerless` does to the status in memory. */
  method MutateServerless(before: Status, p: Pass) returns (next: Status)
    requires p.Serverless?
    ensures next == ServerlessStatus(before, p)
  {
    hide EvaluateKVEvents, ConnectorReadiness, ProgressingFromReady;
    var transitioned := before.remoteStorage;
    var anchor := Some(p.now);
    if before.firstAvailableAt.Some? && !transitioned {
      anchor := before.firstAvailableAt;
    }
    var base := Condition(IsTrue, if p.eventsOnly then EventsOnlyActive else HostOnlyActive);
    if !p.eventsOnly {
      base := ConnectorReadiness(p.spec, p.connector, base);
    }
    var seen := before.firstKVEventAt.Some? || p.event.Some?;
    var gate := EvaluateKVEvents(p.spec, seen, ReasonOf(before.ready), base, anchor, p.now, transitioned);
    if !p.eventsOnly {
      gate := Downgrade(gate, KernelReason(p.kernelFails));
    }
    next := before.(remoteStorage := !p.eventsOnly && p.spec.typed && p.spec.storage);
    if next.firstKVEventAt.None? && p.event.Some? {
      next := next.(firstKVEventAt := p.event);
    }
    var canAnchor := p.eventsOnly || !p.spec.typed || base.verdict.IsTrue?;
    if transitioned && !canAnchor {
      next := next.(firstAvailableAt := None);
    } else if canAnchor && (next.firstAvailableAt.None? || transitioned) {
      next := next.(firstAvailableAt := Some(p.now));
    }
    next := next.(ready := Some(gate.ready), degraded := Some(gate.degraded), progressing := Some(ProgressingFromReady(gate.ready)),
                  probe := None);
  }

  /** The in-memory backend a reconcile pass rewrites, and the shared limiter. */
  class Backend {
    var status: Status
    var last: Option<int>
    const rateLimit: int

    constructor (rateLimit: int)
      ensures status == FRESH && last == None && this.rateLimit == (if rateLimit > 0 then rateLimit else 30 * SECOND)
    {
      status, last := FRESH, None;
      this.rateLimit := if rateLimit > 0 then rateLimit else 30 * SECOND;
    }

    ghost function Now(): World
      reads this
    {
      World(status, last)
    }

    /** `patchStatus`: persist, or roll the mutation back. */
    method PatchStatus(before: Status, others: bool, patched: bool) returns (ok: bool)
      modifies this`status
      ensures ok <==> Persists(before, old(status), others, patched)
      ensures status == if patched then old(status) else before
    {
      if status == before && !others {
        return true;
      }
      if !patched {
        status := before;
        return false;
      }
      return true;
    }

    /** `updateManagedStatus`: the limiter records a call only once it is persisted. */
    method UpdateManagedStatus(p: Pass)
      requires p.Managed?
      modifies this
      ensures Now() == Step(old(Now()), p, rateLimit)
    {
      hide ManagedStatus, ManagedProbe;
      var before := status;
      var next, commit := MutateManaged(before, last, p, rateLimit);
      status := next;
      var ok := PatchStatus(before, p.others, p.patched);
      if ok && commit {
        last := Some(p.now);
      }
    }

    /** `reconcileServerless` */
    method ReconcileServerless(p: Pass)
      requires p.Serverless?
      modifies this
      ensures Now() == Step(old(Now()), p, rateLimit)
    {
      hide ServerlessStatus;
      var before := status;
      last := None;
      status := MutateServerless(before, p);
      var ok := PatchStatus(before, p.others, p.patched);
    }

    /** `reconcileExternal` */
    method ReconcileExternal(p: Pass)
      requires p.External?
      modifies this
      ensures Now() == Step(old(Now()), p, rateLimit)
    {
      var before := status;
      last := None;
      var ready, remote := p.accepted, p.accepted;
      if ready.verdict.IsTrue? {
        remote := remote.(reason := RemoteStorageReady);
      }
      status := status.(remoteStorage := p.spec.typed && p.spec.storage);
      if p.spec.typed {
        ready := ConnectorReadiness(p.spec, p.connector, remote);
      }
      status := status.(progressing := Some(ProgressingFromReady(ready)), ready := Some(ready));
      status := status.(degraded := None, probe := None);
      assert status == ExternalStatus(before, p);
      var ok := PatchStatus(before, p.others, p.patched);
    }

    /** `reconcileUnmanaged` */
    method ReconcileUnmanaged(p: Pass)
      requires p.Unmanaged?
      modifies this
      ensures Now() == Step(old(Now()), p, rateLimit)
    {
      if !p.cleaned {
        return;
      }
      var before := status;
      last := None;
      status := status.(remoteStorage := false, ready := None, progressing := None, degraded := None, probe := None, firstAvailableAt := None);
      var ok := PatchStatus(before, p.others, p.patched);
    }
  }
}
