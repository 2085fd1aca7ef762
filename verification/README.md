# inference-cache in Dafny

A model of the inference-cache control plane and proofs about it. The server keeps
an in-memory index of which engine replica holds which prompt prefix, learns it from
replica reports and events, forgets it by time to live, tenant quota and a global
cap, and answers "where should this request go". Everything the index holds is soft
state. The controller publishes the readiness of cache backends.

What is proved, in short:

- **Soft state is safe.** Over every run the stored entries are a sub-map of the
  unbounded log of last reports, so lookups miss but never mislead, exactly as long
  as 32-bit sums do not fall back; and a sweep changes no match. A stored entry is,
  field by field, a report nobody reported over or withdrew (`Runs`, `Reports`,
  `Sweeps`).
- **All of it holds under interleaving.** A history is any sequence of turns, each one
  acquisition of the index lock or one lock-free increment; lookups, deliveries,
  increments and probe runs are spread over many. At every moment public state is the
  run of the public turns, every counter is the number of delivered uses, late credit
  reaches the entry that was found and no successor, every replica of a served match
  was last reported so, and probe runs the clock does not outlast pass (`Histories`,
  `Deliveries`, `ProbeHistories`). The server's methods produce such histories
  (`Server`).
- **The fast index is the slow one.** Six redundant structures, kept by hand, equal
  their definition by scanning after every operation; every accelerated query
  returns what a full scan returns (`CacheIndex`, `Lookup`, `Routing`, `Snapshots`).
- **Eviction is exact and order-free.** Cap and quota remove exactly the excess,
  exactly the first in a total order, and no other choice is possible: least used
  where frequency counts, else seen longest ago (`Eviction`).
- **Lookups and replies are what their fields say**: who matches, with what score, best
  first, and every reason code iff (`Scoring`, `Requests`, `Response`).
- **Probes do not interfere, but for one thing, and cannot be disturbed.** Histories
  with and without probe runs agree on public state and on every reply, except that a
  miss diagnosed while nothing but probe entries is stored reads UNKNOWN_TENANT
  instead of no hint, as at a cold start (`Isolation`, `Visibility`,
  `Noninterference`, `Twins`, `ColdStart`, `Probe`).
- **Readiness is published exactly when observed, and its gates are sticky where they
  must be** (`Readiness`, `Reconciler`).

## Layout

- `Ordering`, `Sorting`, `Tally`: string order, strict orders, lowest-n selection,
  sorting, counts kept step by step.
- `Domain`, `Policy`: domain types; the policy store and its resolvers.
- `IndexModel`: the index as a value and what each operation does to it.
  `Eviction`, `Runs`, `Reports`, `Sweeps`, `LookupModel`, `Scoring`, `Ranking`,
  `Isolation` reason about it.
- `Bookkeeping`, `Collect`, `CacheIndex`: the representation, its invariant, the
  gathering loops, and the class that refines `IndexModel` in place.
- `Lookup`, `Routing`, `Snapshots`, `Encoding`, `Response`, `Requests`, `Probe`: the
  read path, the snapshot, the handlers and the probe.
- `Histories`, `Deliveries`, `ProbeHistories`, `Server`: the server as a state machine
  over turns, the theorems about every history, and the class that refines it.
- `Visibility`, `Noninterference`, `Twins`, `ColdStart`: what a public request can tell
  about probes, in one look, over a history, between two histories, and an example.
- `Readiness`, `Reconciler`: the decisions of the readiness gates and reconcile
  passes as state-machine steps.

Modelling choices. Times are integers (0 is the unset time), scores and rates are
reals, token counts are 32-bit with explicit wrap-around, hash bytes are strings.
SHA-256, the fingerprint of tokens and the tokenizer's result are parameters. Go map
iteration is an arbitrary choice of the next key. The clock, the policy snapshot an
operation is answered from, deadlines, probe replies and status-patch failures are
parameters of each step. What runs under one acquisition of the index lock is one
atomic turn; nothing longer is.
Entries are shared by pointer in Go; here a pointer is a position in the sequence of
all entries ever allocated, so identity, and credits to evicted entries, are kept.

Where code and documentation differ the code is followed: a prefix hash sent beside
a block chain is stored as well, though the type's comment says it is ignored; and
re-entering a serverless mode re-opens the first-event window only when the earlier
mode left remote-storage status behind, which non-typed backends never do. The probe's
comment calls its residue invisible to real lookups; the miss classifier withholds its
diagnosis only while nothing at all is stored, and a probe entry counts there.

## Model

| member | source | states |
|---|---|---|
| `Runs.StoredIsLastReport` | internal/index/ingest.go:24-200 | over every sequence of reports, events, sweeps and credits, each stored entry carries exactly the tokens, tier and time of the last report about it, and no explicit removal came after |
| `Runs.LogIsLastReport` | internal/index/ingest.go:24-200 | the unbounded log (last report wins, removals erase) holds exactly the last reports |
| `Runs.StoredIsLogged` | internal/index/doc.go:13-15 | the bounded, expiring index is at every moment a sub-map of the unbounded log |
| `Runs.LossOnlyShortens` | internal/index/lookup.go:253-341 | losing entries can only shorten a leading run and, when the running sums rise, only lower or lose a match |
| `Runs.NeverAWrongAnswer` | internal/index/doc.go:13-15 | soft state gives misses, never wrong answers: for any counts each block of a matched run was last reported by that replica and is fresh; when the running sums rise the log matches it too with no fewer tokens |
| `Runs.NeverAWrongExactAnswer` | internal/index/lookup.go:82-215 | an exact match carries the replica's last word about the prefix, still fresh |
| `Runs.NoWrap` | internal/index/ingest.go:67-70 | below the bound the wrapping sum is the plain sum |
| `Runs.AlwaysWithinCap` | internal/index/eviction.go:133-220 | in every reachable state the unreserved total is within a positive cap |
| `Runs.StaysWithinBudget` | internal/index/eviction.go:257-321 | under a fixed budget a tenant that is within it stays within it, whoever else reports |
| `Runs.SafeIffRising` | internal/index/lookup.go:283-285 | exactly when: for every list of 32-bit counts, no run of the index ever claims more than its log iff the running sums, once positive, never fall back |
| `Runs.LossMisleads` | internal/index/lookup.go:283-285 | the failing half as a run: whenever the sums fall back, a run of reports and a sweep makes a lookup claim what the log does not |
| `Runs.FittingCountsRise` | internal/index/ingest.go:67-70 | non-negative counts whose total fits 32 bits are within the condition |
| `Reports.StoredAsReported` | internal/index/ingest.go:24-131 | in fields of the report: what survives of it is filed under its tenant, model, scheme, the reference's adapter or else the update's, and hash, with the last reference's own token count or the sum up to the last block of that hash, its tier or T1, and its time; with room all of it is stored; without a scheme, or for arrays that disagree, nothing is |
| `Reports.UpdateSays` | internal/index/ingest.go:34-92 | the writes of an update are what its last references say, and no others |
| `Reports.RefSays` | internal/index/ingest.go:39-87 | the same for one reference: plain, chain, or chain with a prefix hash beside it |
| `Reports.ReportKeepsCounter` | internal/index/accounting.go:29-45 | a report keeps the frequency counter, and a new entry starts at zero |
| `Reports.StatsAsReported` | internal/index/ingest.go:88-102 | stats that come with a report replace the replica's for that tenant and model, under its own name and that time; others stay |
| `Reports.EventTakes` | internal/index/ingest.go:154-200 | in fields of the event: an eviction takes the replica's hash of that tenant and model under one adapter or all, a clearing event all of them, other events nothing |
| `Reports.EventStatsExactly` | internal/index/ingest.go:138-200 | a clearing event takes the replica's stats too; a liveness event moves only when it was seen |
| `Reports.StoredWasReported` | internal/index/ingest.go:24-200 | over every run, in fields: a stored entry is what some report said last about it, and no report or event since speaks of it |
| `Reports.WithdrawnStaysGone` | internal/index/ingest.go:154-200 | what an event withdrew is stored in no later state until its replica reports it again |
| `Reports.WithdrawnIsNotMatched` | internal/index/lookup.go:82-341 | nor is it matched, exactly or as a block of a chain |
| `Reports.ReportThenExactLookup` | internal/index/ingest.go:83-87 | round trip: a reported prefix, looked up exactly, matches its token count and tier with hit probability one |
| `Reports.ReportThenChainLookup` | internal/index/lookup.go:253-341 | round trip: a reported chain, or the beginning of it, is matched in full |
| `Histories.WellKeptNext` | internal/index/types.go:285-314 | every turn keeps the representation sound, and every lookup under way and every increment still to be made pointing at allocated entries |
| `Histories.LookCoherent` | internal/index/lookup.go:382-432 | what any look finds is ranked, lists replicas once, and carries hits on listed prefix matches only |
| `Histories.StoredIsRun` | internal/index/ingest.go:24-200 | at every moment of every interleaving the stored state is the run of the operations so far |
| `Histories.PublicStateSeesNoProbe` | internal/server/probe.go:276-289 | at every moment of every interleaving, also in the middle of probe runs, public state is the run of the public turns alone |
| `Histories.TraceIsPublic` | internal/server/probe.go:276-289 | those turns are exactly the reports, events, sweeps and increments as they came, without the reserved tenant's |
| `Histories.AlwaysBounded` | internal/index/eviction.go:133-220 | at every moment the unreserved total is within a positive cap |
| `Histories.CreditIsConserved` | internal/index/types.go:298-314 | over every interleaving, a counter plus its increments still to be made is the number of the entry's occurrences in delivered prefix matches |
| `Histories.CreditStep` | internal/index/types.go:298-314 | one turn: only a delivery adds to that sum, and by what it delivers |
| `Deliveries.DescendsThroughout` | internal/index/accounting.go:29-45 | between any two moments a hold is found with the entry it had, or with one allocated since |
| `Deliveries.KeptHoldKeepsEntry` | internal/index/accounting.go:29-45 | a hold that is never dropped keeps its entry |
| `Deliveries.MatchWasFound` | internal/index/lookup.go:408-425 | every prefix match waiting for delivery was found by one earlier look, on the state of that moment |
| `Deliveries.LateCreditMissesSuccessor` | internal/index/types.go:300-314 | a hold dropped between look and credit and taken up again gets nothing, however late delivery and increments come |
| `Deliveries.LateCreditReachesSurvivor` | internal/index/types.go:300-314 | a hold kept since the look, a block of the run or the exact prefix, still has the entry that is credited |
| `Deliveries.MatchIsTold` | internal/index/lookup.go:82-341 | what a lookup claims of a replica, chain or exact, is that replica's last word and fresh |
| `Deliveries.ServedMatchWasTold` | internal/index/doc.go:13-15 | every replica of every PREFIX_MATCH reply of every history was last reported by that history, up to the look, for each block of its run or for the exact prefix |
| `Deliveries.EveryDeliveryKeepsContract` | internal/server/inferencecache_service.go:531-632 | every delivery of every history keeps the response contract under the policies it is made with |
| `Deliveries.EveryReplyIsProper` | internal/server/inferencecache_service.go:185-632 | every reply ever given has scores iff it is a hint, the best first |
| `Deliveries.TrivialOverlapDeliveredIff` | internal/server/inferencecache_service.go:571-590 | an overlap that distinguished nobody when found is delivered as a match iff the policies at delivery have no routing floor and it clears their other floors |
| `Deliveries.ServedMatchWasFound` | internal/index/lookup.go:408-425 | every replica of a served match is in the lookup of one earlier look |
| `Deliveries.HitsExactly` | internal/index/lookup.go:158-195 | under a frequency policy a look puts up for credit, for every replica it matches, the entry of each block of its run or of the exact prefix; otherwise nothing |
| `ProbeHistories.EveryRunComesOutAsDue` | internal/server/probe.go:289-440 | in every interleaving, every finished probe run for which the sweeps since it began and its own checks came within the TTL has passed both stages, or failed only for want of a scheme or a model; other runs may stall |
| `ProbeHistories.OnTrackThroughout` | internal/server/probe.go:125-146 | at every moment the entry of a run the clock has not outlasted is as it wrote it, and its checks came out as due |
| `ProbeHistories.IntactNext` | internal/server/probe.go:125-146 | no turn of anyone else touches the entry of a run under way |
| `ProbeHistories.CheckOnTrack` | internal/server/probe.go:333-413 | a check in time comes out as due |
| `ProbeHistories.AlwaysConfined` | internal/server/probe.go:276-309 | at every moment the reserved tenant holds nothing but what runs under way wrote, and nothing without one |
| `Visibility.LookupPublic` | internal/index/lookup.go:53-364 | a public lookup returns on any state what it returns on the public entries and stats |
| `Visibility.HotPublic` | internal/index/lookup.go:459-571 | so does the tenant-hot fallback |
| `Visibility.HitsPublic` | internal/index/lookup.go:82-364 | and it would credit the same entries |
| `Visibility.ServingPublic` | internal/index/lookup.go:342-351 | reserved holds add no serving replica to a public scope |
| `Visibility.MissSeesProbe` | internal/index/lookup.go:726-742 | the diagnosis of a public miss differs from the one on public state exactly while something is stored and all of it is reserved; it is then UNKNOWN_TENANT instead of none |
| `Visibility.LookPublic` | internal/index/lookup.go:382-432 | one look of a public request is a look at public state, save a diagnosis under exactly that condition |
| `Visibility.DeliveredPublic` | internal/server/inferencecache_service.go:531-689 | given its result, a public reply is decided by public state, the affinity pick included |
| `Noninterference.LookIsPublic` | internal/server/probe.go:282-289 | in every history every look of a lookup under way is a look at the run of the public turns, save a diagnosis made while only probe entries are stored |
| `Noninterference.DeliveryIsPublic` | internal/server/inferencecache_service.go:531-632 | and every delivery is decided by its result and that run |
| `Noninterference.BlindedByProbe` | internal/server/probe.go:282-289 | what is stored at such a diagnosis was written by probe runs under way |
| `Noninterference.PendingIsPublic` | internal/server/inferencecache_service.go:206-210 | no lookup of the reserved tenant is ever under way |
| `Twins.TwinsAreAlike` | internal/server/probe.go:276-289 | non-interference: a history with probe runs and one of the same public turns without any agree at every moment on public entries, counters, stats, lookups under way and increments to be made, up to the names of entries; lookups diagnosed while only probe entries were stored hold UNKNOWN_TENANT for none |
| `Twins.TwinsReplyAlike` | internal/server/probe.go:282-289 | every turn answers the same in both histories iff it is not the delivery of such a lookup, which answers UNKNOWN_TENANT for no hint or an affinity pick |
| `Twins.KindredNext` | internal/server/inferencecache_service.go:185-632 | one turn of both keeps lookups and increments alike |
| `Twins.NamedNext` | internal/index/accounting.go:17-46 | entries of public holds keep corresponding names, and new ones get new names |
| `Twins.OpTwin` | internal/index/types.go:308-314 | an increment raises the counter of the same hold in both, or of none |
| `Twins.SameReply` | internal/server/inferencecache_service.go:531-689 | one result on one public state has one reply |
| `ColdStart.RepliesDiffer` | internal/index/lookup.go:726-742 | the failing case as twin histories: on a server that holds nothing, any well-formed chain lookup during any probe run with a scheme is told UNKNOWN_TENANT, and NO_HINT without the run |
| `ColdStart.Witness` | internal/server/probe.go:276-331 | two servers, one probed, that serve such histories |
| `Server.Flatten` | internal/index/types.go:308-314 | one increment per occurrence in the hits |
| `Server.Server.constructor` | internal/server/server.go:147-160 | a new server reserves the probe tenant, is empty and has answered nothing |
| `Server.Server.ReportCacheState` | internal/server/inferencecache_service.go:1009-1023 | a report for the reserved tenant is dropped, any other is ingested |
| `Server.Server.PublishEvent` | internal/server/inferencecache_service.go:1031-1049 | an event for the reserved tenant is dropped, any other is applied |
| `Server.Server.Sweep` | internal/index/eviction.go:57-114 | one sweep, lookups and probes under way left alone |
| `Server.Server.StartLookup` | internal/server/inferencecache_service.go:185-291 | answered early, or under way with its resolved inputs |
| `Server.Server.ContinueLookup` | internal/index/lookup.go:382-432 | one look of a lookup under way, on the present state and clock |
| `Server.Server.FinishLookup` | internal/server/inferencecache_service.go:531-632 | the reply is the delivered contract on the found result and the present state; exactly the occurrences in a delivered match become due |
| `Server.Server.AbandonLookup` | internal/server/inferencecache_service.go:340-366 | a passed deadline answers a timeout and forgets the lookup with its hits |
| `Server.Server.CreditOne` | internal/index/types.go:308-314 | one due increment is made, without the lock, also on an entry no longer stored |
| `Server.Server.BeginProbe` | internal/server/probe.go:289-331 | a run starts, unless one for the same backend and model is under way, by writing its entry |
| `Server.Server.CheckProbe` | internal/server/probe.go:333-413 | the next stage of a run, on the present state and clock |
| `Server.Server.FinishProbe` | internal/server/probe.go:442-457 | a finished run is cleaned up and answered |
| `Server.Server.ServeOne` | internal/server/inferencecache_service.go:185-1049 | any turn does exactly what `Next` says of it |
| `Server.Server.Serve` | internal/server/inferencecache_service.go:185-1049 | serving any schedule of turns is a history of exactly those turns, so every theorem about histories is one about the server |
| `Eviction.CapExact` | internal/index/eviction.go:133-220 | the cap evicts exactly the excess of unreserved entries, and every victim precedes every unreserved survivor in (effective count, last seen, full key, replica) |
| `Eviction.CapEffect` | internal/index/eviction.go:139-220 | reserved entries stay, survivors keep their values, and the total ends exactly at the cap when it was above |
| `Eviction.CapUnique` | internal/index/eviction.go:176-207 | no other set of that size precedes its survivors, so the victims cannot depend on map iteration order |
| `Eviction.EvictFirstStrict` | internal/index/eviction.go:176-207 | the victim order is a strict total order on candidates |
| `Eviction.QuotaExact` | internal/index/eviction.go:257-321 | the quota step picks exactly the excess of the tenant's distinct prefixes, none younger than a prefix that stays; age is that of the freshest replica |
| `Eviction.QuotaEffect` | internal/index/eviction.go:257-321 | picked prefixes go with all their replicas, other tenants are untouched, and the tenant ends exactly at its budget when it was above |
| `Eviction.QuotaUnique` | internal/index/eviction.go:281-302 | the picked prefixes are the only such choice |
| `Eviction.IngestWithinBounds` | internal/index/ingest.go:103-117 | right after an ingest the tenant is within its budget and the unreserved total within the cap, from any state |
| `Eviction.IngestSparesOthers` | internal/index/ingest.go:103-117 | an ingest can take another tenant's entry only through an exceeded cap, and never a reserved one |
| `Eviction.WritesInScope` | internal/index/ingest.go:35-87 | every write of an update is filed under its tenant, model and scheme |
| `Eviction.OlderStrict` | internal/index/eviction.go:281-302 | the quota order is strict and total on one tenant's keys |
| `Eviction.QuotaOrder` | internal/index/eviction.go:281-302 | a picked prefix is no younger than any that stays, and on equal age comes first by model, scheme, adapter and hash in byte order |
| `Eviction.CapEvictsLeastWorth` | internal/index/eviction.go:176-207 | in fields: a victim is used no more than an unreserved survivor where the tenant's policy says "lfu" in any case, else it was seen no later, else it comes first by key and replica |
| `Eviction.CapKeepsTheBetter` | internal/index/eviction.go:176-207 | without frequency policies no survivor is older than a victim; among tenants with one none is used less |
| `Eviction.LFUIsByName` | internal/index/eviction.go:41-52 | frequency counts exactly for tenants whose row names it, in any case |
| `Sweeps.SweepIsSilent` | internal/index/eviction.go:57-106 | a sweep changes no match: after any later operations that meet no full budget or cap, a lookup returns the same replicas, matched tokens, hit probability and tier as without it |
| `Sweeps.StepKeepsBehind` | internal/index/ingest.go:24-200 | a report with room, an event, another sweep or a credit keeps two states apart by entries expired at the first sweep only |
| `Sweeps.BehindSameEvidence` | internal/index/lookup.go:154-157 | a lookup does not see what has expired |
| `Isolation.RealWorkloadUnaffected` | internal/index/eviction.go:133-166 | over every run, public state is exactly what it would be had the reserved tenant's operations not occurred |
| `Isolation.CapPublic` | internal/index/eviction.go:139-175 | the cap decides from public entries alone |
| `Isolation.QuotaPublic` | internal/index/eviction.go:257-321 | so does a public tenant's quota |
| `Isolation.IngestReserved` | internal/server/policy.go:281-305 | a reserved report within the cap evicts nothing |
| `Isolation.PublicStep` | internal/index/eviction.go:133-166 | a public operation acts on public state as if nothing else were stored |
| `Isolation.ReservedStep` | internal/server/policy.go:281-305 | an operation of the probe tenant leaves public state alone |
| `Probe.ReplicaIdInjective` | internal/server/probe.go:212-214 | distinct backends probe under distinct replica ids |
| `Probe.ProbeIsIdentity` | internal/server/probe.go:309-457 | from any state within the cap with no residue, even exactly at it, write then erase is the identity |
| `Probe.CleanupLeavesNothing` | internal/server/probe.go:442-457 | after cleanup nothing of the probe is left, whatever happened before |
| `Probe.StagesExact` | internal/server/probe.go:333-413 | stage A passes iff a scheme is set and the entry is stored and young; stage B iff also a model is set |
| `Probe.ProbeAlwaysPasses` | internal/server/probe.go:276-413 | under any interleaving with public reports and events, sweeps, credits and runs for other pairs, from any state, both stages pass while the clock moves less than the TTL |
| `Probe.RunStages` | internal/server/probe.go:317-413 | the two stages report exactly what they observe on the index |
| `Probe.RunProbe` | internal/server/probe.go:289-457 | with nothing in between: a run restores primary map, stats, entries and every counter; its stages pass iff scheme and model are set and the clock stayed within the TTL |
| `Probe.Determined` | internal/index/index.go:141-185 | equal holds and stats force an equal primary map and equal redundant structures |
| `Probe.ProbeStored` | internal/server/probe.go:317-331 | from any state the probe entry is stored, whatever cap and quota |
| `Probe.ProbeFound` | internal/server/probe.go:333-362 | a probe lookup finds its replica iff the entry is there and fresh |
| `Probe.IntactThroughout` | internal/server/probe.go:125-146 | nothing that may happen during a run touches its entry |
| `Probe.ReplicaInScores` | internal/server/probe.go:459-469 | whether a replica is among the scores |
| `Probe.CheckLanded` | internal/server/probe.go:341-362 | stage A reports what one lookup observes |
| `Probe.CheckRouted` | internal/server/probe.go:386-413 | stage B reports what one route lookup observes |
| `Bookkeeping.InsertSound` | internal/index/accounting.go:17-46 | one insertion keeps all six redundant structures equal to their definition by scanning, and does to the stored entries what the value model says |
| `Bookkeeping.RemoveSound` | internal/index/accounting.go:50-79 | one removal keeps them too, leaving no zero count and no empty inner map |
| `Bookkeeping.RefreshSound` | internal/index/accounting.go:29-45 | a refresh writes through the same entry and keeps its frequency counter |
| `Bookkeeping.InsertKeepsBooks` | internal/index/accounting.go:17-90 | totals, reserved totals, keys per tenant and per (tenant, model), and holds per domain and replica follow an insertion |
| `Bookkeeping.EraseKeepsBooks` | internal/index/accounting.go:50-109 | and a removal |
| `Bookkeeping.StatsPutSound` | internal/index/accounting.go:114-121 | stats membership per (tenant, model) follows a report |
| `Bookkeeping.StatsDropSound` | internal/index/accounting.go:126-135 | and a drop |
| `Bookkeeping.CreditSound` | internal/index/types.go:308-314 | a credit keeps every counter equal to the number of credits its entry was given |
| `Bookkeeping.SoundCounts` | internal/index/index.go:141-185 | the counters the eviction loops read are the cardinalities they stand for |
| `Bookkeeping.StatsTouchSound` | internal/index/ingest.go:147-153 | a liveness event leaves stats membership alone |
| `Tally.Count2Insert` | internal/index/accounting.go:83-90 | bumping a nested count equals recounting |
| `Tally.Count2Erase` | internal/index/accounting.go:95-109 | dropping from a nested count equals recounting, with empty rows removed |
| `Tally.CountConserves` | internal/index/snapshot.go:32-55 | counts by any attribute add up to the number counted |
| `Tally.CountInsert` | internal/index/accounting.go:17-28 | bumping a count equals recounting |
| `Tally.CountErase` | internal/index/accounting.go:50-79 | dropping from a count equals recounting, without zero rows |
| `Tally.GroupInsert` | internal/index/accounting.go:114-121 | joining a group equals regrouping |
| `Tally.GroupErase` | internal/index/accounting.go:126-135 | leaving a group equals regrouping, without empty groups |
| `CacheIndex.Index.constructor` | internal/index/index.go:250-307 | a new index is empty and valid; a non-positive TTL becomes the default and empty reserved ids are ignored |
| `CacheIndex.Index.InsertReplica` | internal/index/accounting.go:17-46 | first sight of a hold: a newly allocated entry, the representation invariant, and nothing else changed |
| `CacheIndex.Index.UpsertReplica` | internal/index/accounting.go:17-46 | insert or refresh is `Put` on the stored entries; no hold changes its entry |
| `CacheIndex.Index.RemoveReplica` | internal/index/accounting.go:50-79 | exactly that hold goes, if present |
| `CacheIndex.Index.RemovePrefix` | internal/index/eviction.go:308-317 | every replica of the key goes and nothing else |
| `CacheIndex.Index.EvictOldestForTenant` | internal/index/eviction.go:257-321 | the collect-sort-remove loop computes the quota step and returns the number of prefixes evicted |
| `CacheIndex.Index.EnforceCap` | internal/index/eviction.go:133-220 | the collect-sort-remove loop computes the cap step; every victim is worth less than every unreserved survivor: used less where frequency counts, else seen earlier, else first by name |
| `CacheIndex.Index.EvictExpired` | internal/index/eviction.go:57-114 | the sweep removes exactly the entries and stats at or past their tenant's TTL |
| `CacheIndex.Index.IngestRef` | internal/index/ingest.go:39-87 | a chain becomes one write per block with cumulative counts; mismatched arrays write nothing; a prefix hash beside a chain is written as well |
| `CacheIndex.Index.Ingest` | internal/index/ingest.go:24-131 | writes, stats, quota, cap: the state is `IngestF` of the old state, and a hold that stays keeps its entry |
| `CacheIndex.Index.ApplyEvent` | internal/index/ingest.go:138-200 | the state is `EventF` of the old state; the entries lost are exactly those the event withdraws by its fields |
| `CacheIndex.Index.CreditHits` | internal/index/types.go:308-314 | each listed entry gains one use per occurrence, stored or not |
| `CacheIndex.Index.DropInOrder` | internal/index/eviction.go:303-320 | prefixes go in listed order until the kept counter is within the budget, which is after exactly the excess |
| `CacheIndex.Index.ExpireKey` | internal/index/eviction.go:87-98 | exactly the stale replicas of one key go |
| `CacheIndex.Index.ExpireEntries` | internal/index/eviction.go:85-98 | exactly the entries past their tenant's TTL go; the rest keep their pointers |
| `CacheIndex.Index.ExpireStats` | internal/index/eviction.go:99-105 | exactly the stats past their tenant's TTL go, with their membership |
| `CacheIndex.Index.IngestPrefixes` | internal/index/ingest.go:35-87 | all writes of an update in order, none without a scheme |
| `CacheIndex.Index.EraseTargets` | internal/index/ingest.go:154-191 | the replica loses exactly the keys the event targets |
| `Collect.CollectCapRefs` | internal/index/eviction.go:161-175 | the nested walk, in arbitrary order, lists every unreserved entry once |
| `Collect.CollectQuotaRefs` | internal/index/eviction.go:268-280 | the walk lists every key of the tenant once with the age of its freshest replica |
| `Collect.CollectOfKey` | internal/index/eviction.go:167-174 | the replicas of one key are listed once each with count and time |
| `Sorting.SortSlice` | internal/index/ranking.go:102-109 | in-place sort: a permutation, ascending in a strict order |
| `Sorting.ListingUnique` | internal/index/eviction.go:176-207 | two ascending listings of one set are equal, so sorting erases the gathering order |
| `Policy.PolicyStore.ReplaceSnapshot` | internal/server/policy.go:58-90 | unkeyed rows are dropped, the last row of a key wins, negative budgets become zero; what is absent reverts |
| `Policy.PolicyStore.constructor` | internal/server/policy.go:36-41 | a new store is empty |
| `LookupModel.FreshnessAt` | internal/index/ranking.go:183-195 | freshness is in [0, 1] and positive exactly while younger than a positive TTL |
| `LookupModel.PressureFactorAt` | internal/index/ranking.go:127-136 | the pressure factor is clamped to [0, 1] |
| `LookupModel.DistinguishingPower` | internal/index/ranking.go:170-178 | the factor is in [0, 1] and zero exactly when all of two or more replicas hold as much |
| `LookupModel.RunLenCharacterized` | internal/index/lookup.go:253-298 | the run length is the one number with every earlier block held and fresh and the next not |
| `LookupModel.OldestIsLeast` | internal/index/lookup.go:279-283 | the run's freshness anchor is the least last-seen time over its blocks |
| `LookupModel.RunTierIsColdest` | internal/index/types.go:106-114 | the run's tier is the coldest of its blocks, unspecified iff one of them is |
| `LookupModel.RunStaysFresh` | internal/index/lookup.go:306-309 | the final staleness re-check of a run never drops anyone |
| `LookupModel.MatchesAreServing` | internal/index/lookup.go:342-351 | every replica that matches is in the serving set of the scope |
| `LookupModel.SloCoefficient` | internal/index/ranking.go:115-123 | the tight-budget bias is never negative |
| `LookupModel.DistinguishingPowerAntitone` | internal/index/ranking.go:170-178 | the more replicas hold as much, the smaller the factor |
| `Scoring.FreshnessIsLinear` | internal/index/ranking.go:183-195 | freshness falls linearly from one to zero at the time to live |
| `Scoring.SeenLaterIsFresher` | internal/index/ranking.go:183-195 | what was seen later is never less fresh |
| `Scoring.PressureTakesItsShare` | internal/index/ranking.go:127-136 | pressure takes its weighted share off, within the unit interval |
| `Scoring.DiscountIsTheShareOfOthers` | internal/index/ranking.go:170-178 | the discount is the share of serving replicas that hold less, and none for a single one |
| `Scoring.BiasIsForTightBudgets` | internal/index/ranking.go:115-123 | the bias applies exactly to requests with a tight budget, when configured |
| `Scoring.ChainMatchExactly` | internal/index/lookup.go:228-364 | in fields: a chain matches a replica iff it freshly holds leading blocks in the request's own partition that are worth something, with their 32-bit sum, the freshness of the one seen longest ago and the coldest tier |
| `Scoring.ExactMatchExactly` | internal/index/lookup.go:82-215 | in fields: an exact lookup matches iff the entry is there and fresh, with its tokens, tier and freshness |
| `Scoring.ServingExactly` | internal/index/lookup.go:518-532 | who serves a scope: whoever holds any prefix of that tenant, model and scheme |
| `Scoring.ScoreIsDiscounted` | internal/index/lookup.go:300-360 | a score is the base score times the share of serving replicas that match less deeply |
| `Scoring.BaseIsTheProduct` | internal/index/lookup.go:327-340 | the base score is tokens, freshness, what pressure leaves, and the bias on freshness, multiplied |
| `Scoring.HotExactly` | internal/index/lookup.go:459-571 | in fields: warm are the serving replicas whose stats were reported recently and are good enough; they claim no tokens |
| `Scoring.HotScoreIsTheProduct` | internal/index/lookup.go:540-562 | and their score |
| `Scoring.MissExactly` | internal/index/lookup.go:726-742 | in fields: the diagnosis names the first of tenant, model and scheme that nothing stored has |
| `Ranking.ApplyChainDistinguishingPower` | internal/index/ranking.go:65-98 | the sort-and-group walk computes the naive discount: each score times one minus the fraction of serving replicas at least as deep |
| `Ranking.SortByScore` | internal/index/ranking.go:102-109 | best score first, equal scores in byte order of the id, nothing lost |
| `Ranking.DepthCount` | internal/index/ranking.go:79-97 | in depth order a group's right edge is the number of replicas at least as deep |
| `Ranking.CountWithinServing` | internal/index/lookup.go:342-360 | that number never exceeds the serving set |
| `Ranking.DeeperNeverScoresLower` | internal/index/ranking.go:138-170 | with equal freshness and pressure a deeper match never scores lower |
| `Ranking.TrivialOverlapScoresZero` | internal/index/ranking.go:138-178 | a chain overlap held at equal depth by every one of two or more serving replicas scores zero everywhere |
| `Ranking.TrivialExactOverlapScoresZero` | internal/index/lookup.go:198-211 | and so does an exact one |
| `Ranking.GroupEnd` | internal/index/ranking.go:84-88 | the end of the group of equal depth |
| `Ranking.WalkGroups` | internal/index/ranking.go:84-97 | each group is scaled by the factor of its right edge |
| `Ranking.BaseScoreMonotone` | internal/index/lookup.go:327-340 | more matched tokens never lower the base score |
| `Ranking.FirstIsBest` | internal/index/ranking.go:102-109 | the first of a list has the best score of all that match |
| `Lookup.WalkChain` | internal/index/lookup.go:253-298 | the block-by-block walk with early exit ends with every replica that has a run, at its full length |
| `Lookup.ExtendRuns` | internal/index/lookup.go:271-290 | one block: each run is extended or closed, and none starts |
| `Lookup.ScoreRuns` | internal/index/lookup.go:300-341 | a run gives a score iff its token sum is positive; under LFU its entries are the hits |
| `Lookup.LookupChain` | internal/index/lookup.go:228-364 | the result lists exactly `ChainScores`, best first; hits are the pointers of each matched run |
| `Lookup.LookupExact` | internal/index/lookup.go:82-215 | the result lists exactly `ExactScores`, best first; hits are the positive-token matches |
| `Lookup.StartRuns` | internal/index/lookup.go:256-270 | every fresh holder of block 0 starts a run |
| `Lookup.ScoreHolders` | internal/index/lookup.go:150-195 | every fresh holder is scored; hits need a positive token count |
| `Lookup.RunStep` | internal/index/lookup.go:272-288 | one more block: sum, oldest time, coldest tier and entries follow |
| `Routing.LookupWithHits` | internal/index/lookup.go:53-66 | no scheme or a malformed chain gives nothing; otherwise chain or exact match by scanning |
| `Routing.SoundHasAny` | internal/index/lookup.go:681-697 | the three constant-time presence checks agree with scanning all entries |
| `Routing.ClassifyMiss` | internal/index/lookup.go:726-742 | the widest contract level with no stored key, and none on an empty index |
| `Routing.ServingKeys` | internal/index/lookup.go:518-532 | the serving counts name exactly the replicas holding an entry of the scope |
| `Routing.TenantHotCandidates` | internal/index/lookup.go:459-571 | exactly the replicas a scan of all stats and entries accepts as warm and serving, best first |
| `Routing.LookupRoute` | internal/index/lookup.go:382-432 | with nothing in between: strategy, scores and hits are those of the scan-defined decision; a chain never falls through to tenant-hot |
| `Routing.RankedListUnique` | internal/index/ranking.go:102-109 | equal stored state gives the same list, whatever order maps were walked in |
| `Routing.ReplicasForRouting` | internal/index/lookup.go:628-644 | the serving set of the scope in id order, nothing without a scheme |
| `Routing.AffinityHint` | internal/index/lookup.go:607-618 | ok iff there is a seed, a scheme and a serving replica; the pick serves the scope and its rank in id order is the digest modulo the set size |
| `Routing.AffinityUnique` | internal/index/lookup.go:580-601 | only one replica fits that, so ingest order and restarts cannot move the pick |
| `Routing.WarmReplicas` | internal/index/lookup.go:489-513 | from the replicas known for the model, exactly the warm ones |
| `Routing.ScoreWarm` | internal/index/lookup.go:525-562 | of those, exactly the ones serving the scope, scored |
| `Routing.ScopedHas` | internal/index/lookup.go:489-498 | the per-model replica set has exactly the replicas with stats |
| `Routing.Look` | internal/index/lookup.go:408-431 | one acquisition of the lock: match, tenant-hot or miss, each by scan on the state and clock of that moment, and which comes next |
| `Response.KeptExact` | internal/server/inferencecache_service.go:879-899 | exactly the scores that clear the matched-tokens floor survive |
| `Response.KeptRanked` | internal/index/types.go:327-343 | filtering keeps the ranking |
| `Response.RetainReplicas` | internal/index/types.go:327-343 | for any keep set, scores and hits are pruned in lockstep and the order is kept; without scores nothing happens |
| `Response.ApplyMatchedTokensFloor` | internal/server/inferencecache_service.go:871-900 | survivors with their hits only, or no match when none survives |
| `Response.ApplyFloors` | internal/server/inferencecache_service.go:531-590 | a prefix match gets through iff all three floors hold; tenant-hot iff the prefix floor holds; diagnoses are untouched |
| `Response.TryAffinity` | internal/server/inferencecache_service.go:659-689 | an affinity pick is made iff enabled, eligible, seeded and served; it carries no score and no match |
| `Response.CreditAll` | internal/index/types.go:308-314 | every entry gains as many uses as it occurs in the hits; nothing but counters changes |
| `Response.BuildLookupResponse` | internal/server/inferencecache_service.go:531-632 | with nothing in between: what `DecideResponse` decides, and every entry gains exactly its occurrences in the delivered match |
| `Response.DeliveredContract` | internal/server/inferencecache_service.go:531-632 | PREFIX_MATCH implies all three floors for what is returned; scores are best first and present iff PREFIX_MATCH, TENANT_HOT or AFFINITY_HINT; UNKNOWN codes are neither rewritten nor made up |
| `Response.TrivialOverlapNotDelivered` | internal/server/inferencecache_service.go:571-590 | an overlap that distinguishes nobody is never PREFIX_MATCH under a positive routing floor |
| `Response.RouteCoherent` | internal/index/lookup.go:382-432 | lookup results list replicas once, only listed replicas carry hits, and only prefix matches do |
| `Response.LookupGated` | internal/server/inferencecache_service.go:935-940 | a switched-off tenant-hot result becomes no match |
| `Response.HandleLookup` | internal/server/inferencecache_service.go:185-372 | end to end with nothing in between: probe tenant, deadlines, chain policy and failed resolution answer empty and credit nothing; otherwise the delivered contract, the affinity replica included, on the index state at the lookup |
| `Response.ShortAnswerIsEmpty` | internal/server/inferencecache_service.go:206-291 | what is answered without a lookup carries no hint, only a passed deadline is a timeout, and the probe tenant never gets a lookup |
| `Response.DecideResponse` | internal/server/inferencecache_service.go:531-632 | the reply the floors and affinity decide on the index state at delivery; the entries to credit are those of the delivered match and none otherwise |
| `Response.Admit` | internal/server/inferencecache_service.go:206-291 | a request is answered early or goes on with its resolved inputs, and only one of the two |
| `Response.KeptByDepth` | internal/server/inferencecache_service.go:879-899 | keeping the replicas that clear the floor keeps exactly the scores that do |
| `Response.MatchIffAnyPasses` | internal/server/inferencecache_service.go:571-590 | a match is delivered iff some replica passes both score floors, so iff the best survivor does |
| `Requests.LookedUpExactly` | internal/server/inferencecache_service.go:380-497 | in fields: a chain that counts and a hash are looked up as sent, tokens by their fingerprint; what is malformed, too long, too short or untokenized fails open |
| `Requests.AnsweredAtOnceExactly` | internal/server/inferencecache_service.go:185-291 | when exactly a request gets as far as the index, and what else it is told, in fields of request and policy row |
| `Requests.SwitchesExactly` | internal/server/policy.go:229-280 | every switch is what the row says, else its default |
| `Requests.ReplyExactly` | internal/server/inferencecache_service.go:531-689 | every reason code iff: match, warm, diagnosis, affinity or nothing, decided by the row's floors or the defaults of 64 tokens and 0.1 |
| `Requests.EveryDeliveryFits` | internal/server/inferencecache_service.go:531-689 | so in every delivery of every history |
| `Requests.BudgetsExactly` | internal/server/policy.go:281-305 | after a report a tenant with a budget row is within it; the probe tenant and tenants without a row have none |
| `Requests.SweptExactly` | internal/index/eviction.go:57-114 | in fields: an entry or stats row stays while younger than its tenant's own positive time to live, else than the global one |
| `Requests.ServedMatchIsVouched` | internal/server/inferencecache_service.go:296-316 | every replica of every served match itself last reported each block, or the exact prefix, under the request's own tenant, model, scheme and adapter |
| `Requests.InputsAreResolved` | internal/server/inferencecache_service.go:206-316 | what a lookup under way looks up was resolved from its request |
| `Snapshots.Aggregate` | internal/index/snapshot.go:81-93 | one walk: distinct public keys per tenant and their total |
| `Snapshots.TakeSnapshot` | internal/index/snapshot.go:187-341 | rows are unique and in byte order of tenant and replica, exactly the public owners of holds or stats appear, prefix counts sum to total minus reserved, tenant counts sum to the total and equal the kept counter, a tenant's hit rate is the mean over its replica rows with stats, nothing reserved shows, and each row is what a scan gives |
| `Snapshots.RowOfFits` | internal/index/snapshot.go:249-274 | a replica row holds its number of holds, its newest hold and its most recently seen stats |
| `Snapshots.PublicTenantCount` | internal/index/snapshot.go:81-93 | the walk agrees with the per-tenant counter on every public tenant |
| `Snapshots.LatestStats` | internal/index/snapshot.go:196-205 | the most recently seen stats of every public owner |
| `Snapshots.CountHolds` | internal/index/snapshot.go:217-236 | holds and newest hold of every public owner |
| `Snapshots.ReplicaRows` | internal/index/snapshot.go:246-275 | one row per owner of stats or holds, in order |
| `Snapshots.TenantRows` | internal/index/snapshot.go:299-333 | one row per tenant of stats or keys, in order, with its count and its mean |
| `Snapshots.PrefixCountsTotal` | internal/index/snapshot.go:246-275 | rows with distinct owners that cover the counts add up to their total |
| `Snapshots.IndexEntriesTotal` | internal/index/snapshot.go:293-333 | and so do tenant rows |
| `Snapshots.TenantHits` | internal/index/snapshot.go:277-293 | one walk over the latest stats gives every tenant the sum and number of its hit rates |
| `Snapshots.MeanOfRows` | internal/index/snapshot.go:306-319 | sum over number is the mean over the tenant's replica rows with reported stats |
| `Encoding.FramesRoundTrip` | internal/server/inferencecache_service.go:766-787 | a decoder undoes the length-prefixed encoding when lengths fit 32 bits |
| `Encoding.FramesInjective` | internal/server/inferencecache_service.go:741-765 | so distinct chains have distinct seeds |
| `Encoding.TruncationCollides` | internal/server/inferencecache_service.go:774-779 | a block of 2^32 zero bytes is encoded like a row of empty blocks |
| `Encoding.CanonicalAffinitySeed` | internal/server/inferencecache_service.go:766-787 | the framed chain, else the exact hash, else nothing |
| `Encoding.ProbeInputInjective` | internal/server/probe.go:242-268 | distinct (backend, model, scheme) triples are hashed from distinct bytes |
| `Encoding.Uint32RoundTrip` | internal/server/probe.go:260-268 | the four big-endian bytes read back as the number below 2^32 |
| `Encoding.FramesAppend` | internal/server/inferencecache_service.go:774-779 | appending a block appends its frame |
| `Encoding.InjectiveIff` | internal/server/inferencecache_service.go:741-787 | the seed encoding is injective on chains of blocks shorter than a bound iff the bound is at most 2^32 |
| `Readiness.FirstEventTimeout` | internal/controller/cachebackend_status.go:578-583 | the effective timeout is always positive |
| `Reconciler.EventsNeverForgotten` | internal/controller/cachebackend_status.go:547-563 | over passes of every mode: once an event is latched no later status says events are awaited or missing |
| `Reconciler.LatchHolds` | internal/controller/cachebackend_serverless.go:254-260 | the latch is never lost or rewritten by any pass in any mode |
| `Reconciler.AwaitingExactly` | internal/controller/cachebackend_status.go:432-539 | when exactly a managed pass publishes that it waits, that no events came, and that events were observed |
| `Reconciler.NeverBackToAwaiting` | internal/controller/cachebackend_status.go:416-425 | in managed runs with a fixed timeout and monotone clock a published timeout never turns back into waiting |
| `Reconciler.RaisedTimeoutReopens` | internal/controller/cachebackend_status.go:469-494 | with a raised timeout it does after a flap and does not without one |
| `Reconciler.FailureIsPublished` | internal/controller/cachebackend_probe.go:446-474 | a call with a failed stage publishes the failure under the first stage that failed, takes Ready away and is committed |
| `Reconciler.FailingStep` | internal/controller/cachebackend_probe.go:283-474 | while a failure is published, Ready becomes True exactly when a call passes every stage, the patch persists and no strict kernel failure holds it back |
| `Reconciler.FailureIsSticky` | internal/controller/cachebackend_probe.go:346-419 | no mix of rate limiting, transport errors, upstream flaps and failed patches publishes Ready=True before such a call |
| `Reconciler.OutageIsHarmless` | internal/controller/cachebackend_probe.go:373-432 | a transport error alone leaves Ready to the workload and the events, and is not committed |
| `Reconciler.CommitsAreSpaced` | internal/controller/cachebackend_probe.go:156-179 | two committed calls of a managed run are at least the rate limit apart |
| `Reconciler.MutateManaged` | internal/controller/cachebackend_status.go:157-290 | the managed mutation, step by step, is `ManagedStatus`, about which the run theorems are |
| `Reconciler.MutateServerless` | internal/controller/cachebackend_serverless.go:190-326 | the serverless mutation is `ServerlessStatus` |
| `Reconciler.Backend.PatchStatus` | internal/controller/cachebackend_status.go:668-688 | a failed patch restores the status; a patch is attempted, and can fail, iff a modelled or any other field changed |
| `Reconciler.Backend.UpdateManagedStatus` | internal/controller/cachebackend_status.go:157-351 | one managed pass is one step; a call is committed only once its status persists |
| `Reconciler.Backend.ReconcileServerless` | internal/controller/cachebackend_serverless.go:190-333 | one serverless pass is one step; the limiter is forgotten |
| `Reconciler.Backend.ReconcileExternal` | internal/controller/cachebackend_serverless.go:53-158 | one external pass is one step; both latches are kept |
| `Reconciler.Backend.ReconcileUnmanaged` | internal/controller/cachebackend_serverless.go:343-384 | one unmanaged pass is one step; the event latch is kept, the window is dropped |
| `Reconciler.LatchStep` | internal/controller/cachebackend_status.go:232-239 | one pass keeps the latch and what it implies |
| `Reconciler.Backend.constructor` | internal/controller/cachebackend_reconciler.go:108-113 | a fresh status, no call recorded, a positive rate limit |
| `Reconciler.ManagedReadyExactly` | internal/controller/cachebackend_status.go:157-290 | in fields: a managed backend is published Ready iff its Deployment is rolled out and available, or its connector healthy, the event gate is off or an event was ever seen, and neither probe nor kernel holds it back; with the gate on it says so |
| `Reconciler.ServerlessReadyExactly` | internal/controller/cachebackend_serverless.go:190-326 | the same for a serverless pass |
| `Reconciler.ServerlessAwaitingExactly` | internal/controller/cachebackend_serverless.go:203-326 | when exactly a serverless pass waits, and when it says no events came |
| `Reconciler.ExternalReadyExactly` | internal/controller/cachebackend_serverless.go:53-158 | and for an external one |
| `Reconciler.ManagedNotReadyBecause` | internal/controller/cachebackend_status.go:157-290 | why not: the kernel first, else what carries the backend, by reason |
| `Reconciler.LatchesExactly` | internal/controller/cachebackend_status.go:232-245 | the event seen and the first moment up are latched once |
| `Reconciler.DegradedExactly` | internal/controller/cachebackend_status.go:432-651 | Degraded exactly for replicas missing after a rollout and events missing after the window; Progressing exactly while rolling out or waiting |
| `Reconciler.CommitsExactly` | internal/controller/cachebackend_probe.go:283-474 | a call is committed exactly when made, answered and persisted; what each outcome leaves as the probe condition |
| `Reconciler.UnpatchedExactly` | internal/controller/cachebackend_status.go:668-688 | when the patch fails nothing is published, and a call is committed only if there was nothing to publish |
| `Reconciler.RemoteStatusExactly` | internal/controller/cachebackend_serverless.go:53-326 | remote-storage status is present exactly for typed backends with storage, outside events-only mode |
| `Domain.Int32` | internal/index/ingest.go:67-69 | 32-bit wrap-around: congruent modulo 2^32 and in range, the identity on 32-bit values |
| `Ordering.LessIsByteOrder` | internal/index/eviction.go:176-207 | the string order is byte order: the first difference decides and a proper beginning comes first |

## Left out

- Metrics, logging, gRPC, HTTP and JSON handling, bearer tokens: plumbing with no hard property.
- Floating-point rounding, NaN and infinity (`sanitizeRate`), and saturation of durations: scores are reals and times unbounded integers.
- The tokenizer, token fingerprints and SHA-256: parameters; a tokenizer's failure is an outcome.
- Goroutines and select: a deadline is an early exit before the lookup, or a turn that abandons it at any later point.
- The caches of TTLs and eviction algorithms inside one sweep or cap pass.
- Per-algorithm and per-reason eviction counts, `CacheState`, `EntryCountsByModel`: easy counts beside the ones modelled.
- Snapshots.TakeSnapshot: ties between equally recent stats are broken by map order in the code and left open here.
- Runs.NeverAWrongAnswer: the comparison with the log needs sums that do not fall back; `Runs.SafeIffRising` shows that this is exactly when it holds.
- Routing.LookupRoute: all looks on one state and clock; looks with anything in between are turns of `Histories`, as are deliveries and increments for Response.BuildLookupResponse and Response.HandleLookup.
- Sweeps.SweepIsSilent: reports that meet a full budget or cap are not covered; there eviction chooses among entries of which the unswept expired ones are part. Scores, warm replicas, affinity picks and diagnoses are not either: the serving set counts expired entries until they are swept.
- Policy changes in the middle of one delivery: a turn is answered from one policy snapshot, different turns from any.
- The tier-2 stage of the probe: nothing implements it; it reports skipped.
- Probe.RunProbe: nothing in between its index calls; interleaved runs are in `ProbeHistories`. The mutex per (backend, model) is that a run does not begin while one for the pair is under way; a run that panics before its cleanup is not modelled.
- Reconciler.Backend.UpdateManagedStatus: condition messages, observed generations, requeue times and the advisory conditions (kernels, engine compatibility, tier-2, remote storage) are not modelled beyond whether any of them changed; a probe client that is disabled in the middle of a pass is not either.
- How the kernel check, the connector health and the Deployment are observed: observations of a pass.
- Kubernetes object rendering, node-local server pods, finalizers, transition events, the doctor and canary tools, CRD types.
- The policy push handler and its version normalisation.
