/** The server-side policy store (internal/server/policy.go).

    `Policies` is one snapshot of the store. The index consults it through its
    resolvers, so every index operation here takes the snapshot it was answered
    from as a parameter.
 */
module Policy {
  import opened Domain

  const PROBE_TENANT := "inferencecache.io/probe"
  const DEFAULT_MINIMUM_MATCHED_TOKENS := 64
  const DEFAULT_ROUTING_FLOOR := 0.1

  datatype ResolvedPolicy = ResolvedPolicy(
    namespace: string, evictionTTL: int, minimumPrefixTokens: int, minimumMatchedTokens: int,
    routingFloorScore: Option<real>, affinityRouting: Option<bool>, eviction: string, enableTenantHot: Option<bool>,
    enableChainMatching: Option<bool>, requireChain: Option<bool>)

  datatype ResolvedTenant = ResolvedTenant(tenantID: string, maxIndexEntries: int)

  function LowerChar(c: char): char {
    if 'A' <= c <= 'Z' then ((c as int) + 32) as char else c
  }

  function ToLower(s: string): string {
    seq(|s|, i requires 0 <= i < |s| => LowerChar(s[i]))
  }

  datatype Policies = Policies(policies: map<string, ResolvedPolicy>, tenants: map<string, ResolvedTenant>) {

    function TTL(tenant: string): int {
      if tenant in policies then policies[tenant].evictionTTL else 0
    }

    /** The index evicts by frequency only for tenants that ask for it. */
    predicate IsLFU(tenant: string) {
      tenant in policies && ToLower(policies[tenant].eviction) == "lfu"
    }

    /** The budget of a tenant; the probe tenant never has one. */
    function TenantQuota(tenant: string): Option<int> {
      if tenant == PROBE_TENANT || tenant !in tenants then None else Some(tenants[tenant].maxIndexEntries)
    }

    function MinimumPrefixTokens(tenant: string): int {
      if tenant in policies then policies[tenant].minimumPrefixTokens else 0
    }

    function MinimumMatchedTokens(tenant: string): int {
      if tenant !in policies then DEFAULT_MINIMUM_MATCHED_TOKENS
      else if policies[tenant].minimumMatchedTokens < 0 then 0
      else policies[tenant].minimumMatchedTokens
    }

    function RoutingFloorScore(tenant: string): real {
      if tenant !in policies || policies[tenant].routingFloorScore.None? then DEFAULT_ROUTING_FLOOR
      else if policies[tenant].routingFloorScore.value < 0.0 then 0.0
      else policies[tenant].routingFloorScore.value
    }

    predicate AffinityRoutingEnabled(tenant: string) {
      tenant !in policies || policies[tenant].affinityRouting.None? || policies[tenant].affinityRouting.value
    }

    predicate TenantHotEnabled(tenant: string) {
      tenant !in policies || policies[tenant].enableTenantHot.None? || policies[tenant].enableTenantHot.value
    }

    predicate ChainMatchingEnabled(tenant: string) {
      tenant !in policies || policies[tenant].enableChainMatching.None? || policies[tenant].enableChainMatching.value
    }

    predicate ChainRequired(tenant: string) {
      tenant in policies && policies[tenant].requireChain.Some? && policies[tenant].requireChain.value
    }

    /** Every budget the store can hand to the index is enforceable. */
    ghost predicate Enforceable() {
      forall t :: t in tenants ==> tenants[t].maxIndexEntries >= 0
    }
  }

  /** The effective time to live: the tenant's own if positive, else the global one. */
  function TtlFor(cfg: Config, pol: Policies, tenant: string): int {
    if pol.TTL(tenant) > 0 then pol.TTL(tenant) else cfg.ttl
  }

  class PolicyStore {
    var policies: map<string, ResolvedPolicy>
    var tenants: map<string, ResolvedTenant>

    ghost predicate Valid()
      reads this
    {
      && "" !in policies && "" !in tenants
      && (forall t :: t in tenants ==> tenants[t].maxIndexEntries >= 0)
    }

    function Current(): Policies
      reads this
    {
      Policies(policies, tenants)
    }

    constructor ()
      ensures Valid() && policies == map[] && tenants == map[]
    {
      policies, tenants := map[], map[];
    }

    /** Replace-on-write of both tables: an unkeyed row is dropped, the last row
        of a key wins, and a negative budget becomes the strictest one. */
    method ReplaceSnapshot(ps: seq<ResolvedPolicy>, ts: seq<ResolvedTenant>)
      modifies this
      ensures Valid() && Current().Enforceable()
      ensures forall k :: k in policies <==> k != "" && LastPolicy(ps, k, |ps|).Some?
      ensures forall k :: k in policies ==> policies[k] == LastPolicy(ps, k, |ps|).value
      ensures forall k :: k in tenants <==> k != "" && LastTenant(ts, k, |ts|).Some?
      ensures forall k :: k in tenants ==>
                var pushed := LastTenant(ts, k, |ts|).value;
                tenants[k].tenantID == k && tenants[k].maxIndexEntries == if pushed.maxIndexEntries < 0 then 0 else pushed.maxIndexEntries
    {
      var nextPolicies: map<string, ResolvedPolicy> := map[];
      for n := 0 to |ps|
        invariant forall k :: k in nextPolicies <==> k != "" && LastPolicy(ps, k, n).Some?
        invariant forall k :: k in nextPolicies ==> nextPolicies[k] == LastPolicy(ps, k, n).value
      {
        if ps[n].namespace != "" {
          nextPolicies := nextPolicies[ps[n].namespace := ps[n]];
        }
      }
      var nextTenants: map<string, ResolvedTenant> := map[];
      for n := 0 to |ts|
        invariant forall k :: k in nextTenants <==> k != "" && LastTenant(ts, k, n).Some?
        invariant forall k :: k in nextTenants ==>
                    var pushed := LastTenant(ts, k, n).value;
                    nextTenants[k].tenantID == k && nextTenants[k].maxIndexEntries == if pushed.maxIndexEntries < 0 then 0 else pushed.maxIndexEntries
      {
        var t := ts[n];
        if t.tenantID != "" {
          if t.maxIndexEntries < 0 {
            t := t.(maxIndexEntries := 0);
          }
          nextTenants := nextTenants[t.tenantID := t];
        }
      }
      policies, tenants := nextPolicies, nextTenants;
    }
  }

  /** The last of the first `n` rows with key `k`. */
  ghost function LastPolicy(ps: seq<ResolvedPolicy>, k: string, n: nat): Option<ResolvedPolicy>
    requires n <= |ps|
  {
    if n == 0 then None else if ps[n - 1].namespace == k then Some(ps[n - 1]) else LastPolicy(ps, k, n - 1)
  }

  ghost function LastTenant(ts: seq<ResolvedTenant>, k: string, n: nat): Option<ResolvedTenant>
    requires n <= |ts|
  {
    if n == 0 then None else if ts[n - 1].tenantID == k then Some(ts[n - 1]) else LastTenant(ts, k, n - 1)
  }
}
