/** Decisions of the CacheBackend readiness gates
    (internal/controller/cachebackend_status.go:432-651,
    internal/controller/cachebackend_probe.go:156-190, 283-512, 621-631,
    internal/controller/cachebackend_lmcache_mp_status.go:430-483).
    Conditions are status and reason; message texts are left out.
 */
module Readiness {
  import opened Domain

  datatype Verdict = IsTrue | IsFalse | IsUnknown

  datatype Reason =
    // the workload
    | BackendReady | ScaledToZero | RolloutInProgress | ReplicasUnavailable
    | RemoteStorageReady | RemoteStoragePending | RemoteStorageUnavailable
    | ConnectorUnverified | ConnectorReady | ConnectorSays(text: string)
    | EventsOnlyActive | HostOnlyActive
    | ExternalEndpointMissing | ExternalEndpointInvalid | ExternalEndpointAccepted
    // the KV-event gate
    | AwaitingFirstKVEvent | KVEventsObserved | NoKVEventsObserved | NotDegraded
    // the functional probe
    | ProbeOK | ProbeBypassed | ProbeError | ProbeIngestFailed | ProbeRoutingFailed | ProbeT2Failed
    // the kernel check and the derived Progressing condition
    | EngineKernelDegraded | Synced | DegradedWorkload

  datatype Condition = Condition(verdict: Verdict, reason: Reason)

  const DEFAULT_FIRST_EVENT_TIMEOUT := 5 * MINUTE

  /** The parts of the spec and annotations the gates read. `typed` is a typed
      LMCache multi-process backend, `storage` that it names remote storage. */
  datatype Spec = Spec(requireKVEvents: bool, firstEventTimeout: Option<int>, skipProbe: bool, typed: bool, storage: bool,
                       failOpen: bool)

  function FirstEventTimeout(spec: Spec): (t: int)
    ensures t > 0
    ensures spec.firstEventTimeout.Some? && spec.firstEventTimeout.value > 0 ==> t == spec.firstEventTimeout.value
    ensures spec.firstEventTimeout.None? ==> t == 300 * SECOND
  {
    if spec.firstEventTimeout.Some? && spec.firstEventTimeout.value > 0 then spec.firstEventTimeout.value
    else DEFAULT_FIRST_EVENT_TIMEOUT
  }

  // ---- Workload readiness ----

  datatype Deployment = Deployment(replicas: Option<int>, generation: int, observedGeneration: int, updated: int,
                              available: int)

  function ManagedReadiness(dep: Deployment): Condition {
    var want := if dep.replicas.Some? then dep.replicas.value else 1;
    var rolledOut := dep.observedGeneration >= dep.generation;
    if want == 0 then Condition(IsFalse, ScaledToZero)
    else if rolledOut && dep.updated >= want && dep.available >= want then Condition(IsTrue, BackendReady)
    else if !rolledOut || dep.updated < want then Condition(IsFalse, RolloutInProgress)
    else Condition(IsFalse, ReplicasUnavailable)
  }

  /** The remote-storage view of a managed workload. */
  function RemoteReadiness(ready: Condition, endpoint: bool): Condition {
    if ready.reason.RolloutInProgress? then Condition(IsUnknown, RemoteStoragePending)
    else if !endpoint then Condition(IsFalse, RemoteStorageUnavailable)
    else if ready.verdict.IsTrue? then Condition(IsTrue, RemoteStorageReady)
    else Condition(ready.verdict, RemoteStorageUnavailable)
  }

  /** The connector's own report for the current generation. */
  datatype Connector = Unobserved | Observed(verdict: Verdict, text: string)

  /** `lmCacheMPReadyBase` */
  function ConnectorReadiness(spec: Spec, connector: Connector, remote: Condition): Condition {
    if !spec.typed then remote
    else match connector
      case Unobserved => Condition(IsUnknown, ConnectorUnverified)
      case Observed(verdict, text) =>
        if !verdict.IsTrue? then Condition(verdict, ConnectorSays(text))
        else if spec.storage && !spec.failOpen && !remote.verdict.IsTrue? then remote
        else Condition(IsTrue, ConnectorReady)
  }

  function ManagedBase(spec: Spec, dep: Deployment, endpoint: bool, connector: Connector): Condition {
    var ready := ManagedReadiness(dep);
    if spec.typed then ConnectorReadiness(spec, connector, RemoteReadiness(ready, endpoint)) else ready
  }

  // ---- The KV-event gate ----

  datatype Gate = Gate(ready: Condition, degraded: Condition)

  const HEALTHY := Condition(IsFalse, NotDegraded)

  predicate IsWaiting(r: Reason) {
    r.AwaitingFirstKVEvent? || r.NoKVEventsObserved?
  }

  /** `evaluateKVEventReadiness`; `seen` says that an event was ever observed and
      `published` is the Ready reason in effect. */
  function EvaluateKVEvents(spec: Spec, seen: bool, published: Option<Reason>, base: Condition, anchor: Option<int>,
                            now: int,
                            freshWindow: bool): Gate {
    var plain := Gate(base, if base == Condition(IsFalse, ReplicasUnavailable) then Condition(IsTrue, ReplicasUnavailable) else HEALTHY);
    var breached := Gate(Condition(IsFalse, NoKVEventsObserved), Condition(IsTrue, NoKVEventsObserved));
    if !spec.requireKVEvents || !base.verdict.IsTrue? then plain
    else if seen then Gate(Condition(IsTrue, KVEventsObserved), HEALTHY)
    else if !freshWindow && published == Some(NoKVEventsObserved) then breached
    else
      var since := if anchor.Some? then anchor.value else now;
      if now - since < FirstEventTimeout(spec) then Gate(Condition(IsFalse, AwaitingFirstKVEvent), HEALTHY) else breached
  }

  function ProgressingFromReady(ready: Condition): Condition {
    if ready.verdict.IsTrue? then Condition(IsFalse, Synced)
    else if ready.reason.RolloutInProgress? || ready.reason.AwaitingFirstKVEvent? then Condition(IsTrue, ready.reason)
    else if ready.reason.ReplicasUnavailable? then Condition(IsFalse, DegradedWorkload)
    else Condition(IsFalse, ready.reason)
  }

  // ---- The functional probe gate ----

  datatype StageOutcome = StageOk | StageFailed | StageSkipped | StageUnrecognized
  datatype ProbeReply = ProbeReply(ingest: StageOutcome, routing: StageOutcome, t2: StageOutcome)

  predicate StagePassed(s: StageOutcome) { s.StageOk? || s.StageSkipped? }

  predicate AllPassed(r: ProbeReply) {
    StagePassed(r.ingest) && StagePassed(r.routing) && StagePassed(r.t2)
  }

  /** What a call would give right now, if one is made. */
  datatype Call = TransportError | Replied(reply: ProbeReply)
  datatype Client = NotConfigured | Configured(call: Call)

  function StageReason(r: ProbeReply): Reason {
    if r.ingest.StageFailed? then ProbeIngestFailed
    else if r.routing.StageFailed? then ProbeRoutingFailed
    else if r.t2.StageFailed? then ProbeT2Failed
    else ProbeError
  }

  /** `probeRateLimiter.allow` */
  predicate Allowed(last: Option<int>, now: int, rateLimit: int) {
    last.None? || now - last.value >= rateLimit
  }

  /** What the gate decides: the condition to write or remove, a Ready downgrade,
      and whether a call is to be committed once the status is persisted. */
  datatype ProbeVerdict = ProbeVerdict(write: Option<Condition>, remove: bool, downgrade: Option<Reason>, commit: bool)

  const LEAVE_ALONE := ProbeVerdict(None, false, None, false)

  function Sticky(existing: Option<Condition>): Option<Reason> {
    if existing.Some? && existing.value.verdict.IsFalse? then Some(existing.value.reason) else None
  }

  /** Whether this pass reaches the call. */
  predicate Calls(spec: Spec, upstream: Condition, client: Client, last: Option<int>, rateLimit: int, now: int) {
    client.Configured? && upstream.verdict.IsTrue? && !spec.skipProbe && Allowed(last, now, rateLimit)
  }

  /** `evaluateFunctionalProbe` */
  function EvaluateProbe(spec: Spec, existing: Option<Condition>, upstream: Condition, client: Client, last: Option<int>,
                         rateLimit: int, now: int): ProbeVerdict {
    if client.NotConfigured? then LEAVE_ALONE.(remove := existing.Some?)
    else if !upstream.verdict.IsTrue? then LEAVE_ALONE
    else if spec.skipProbe then LEAVE_ALONE.(write := Some(Condition(IsTrue, ProbeBypassed)))
    else if !Allowed(last, now, rateLimit) then LEAVE_ALONE.(downgrade := Sticky(existing))
    else match client.call
      case TransportError =>
        if Sticky(existing).Some? then LEAVE_ALONE.(downgrade := Sticky(existing))
        else LEAVE_ALONE.(write := Some(Condition(IsUnknown, ProbeError)))
      case Replied(reply) =>
        if AllPassed(reply) then ProbeVerdict(Some(Condition(IsTrue, ProbeOK)), false, None, true)
        else ProbeVerdict(Some(Condition(IsFalse, StageReason(reply))), false, Some(StageReason(reply)), true)
  }

  /** `downgradeReadyVerdict` */
  function Downgrade(gate: Gate, reason: Option<Reason>): Gate {
    if reason.None? then gate else gate.(ready := Condition(IsFalse, reason.value))
  }
}
