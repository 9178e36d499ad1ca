/**
 * The policy table of `setup`: one entry per agent, keyed "agent-<i>", every
 * entry the same DQN policy-graph tuple, and the identity mapping from agent
 * ids to policy ids.
 */
module Policies {
  import opened Outcomes
  import Decimal
  import Envs

  /** The policy-graph class every entry uses. */
  datatype GraphClass = DQNPolicyGraph

  /** `(DQNPolicyGraph, obs_space, act_space, {})`; the extra config is always empty here. */
  datatype PolicySpec = PolicySpec(graph: GraphClass, obs: Envs.Space, act: Envs.Space, extraConfig: map<string, string>)

  /** `gen_policy()` for an environment of the given kind. */
  function GenPolicy(kind: Envs.EnvKind): PolicySpec {
    PolicySpec(DQNPolicyGraph, Envs.ObservationSpace(kind), Envs.ActionSpace(kind), map[])
  }

  const AgentPrefix := "agent-"

  /** `'agent-' + str(i)`. */
  function AgentId(i: nat): string {
    AgentPrefix + Decimal.Show(i)
  }

  /** The index `i` of a key equal to `AgentId(i)`, and None for any other string. */
  function ParseAgentId(k: string): Option<nat> {
    if |k| >= |AgentPrefix| && k[..|AgentPrefix|] == AgentPrefix then
      Decimal.Parse(k[|AgentPrefix|..])
    else
      None
  }

  lemma ParseAgentIdRoundTrip(i: nat)
    ensures ParseAgentId(AgentId(i)) == Some(i)
  {
    var k := AgentId(i);
    assert k[..|AgentPrefix|] == AgentPrefix;
    assert k[|AgentPrefix|..] == Decimal.Show(i);
    Decimal.ParseShow(i);
  }

  lemma AgentIdCanonical(k: string, i: nat)
    requires ParseAgentId(k) == Some(i)
    ensures AgentId(i) == k
  {
    Decimal.ShowParse(k[|AgentPrefix|..], i);
    assert k == k[..|AgentPrefix|] + k[|AgentPrefix|..];
  }

  /** Distinct agents get distinct policy ids. */
  lemma AgentIdInjective(i: nat, j: nat)
    requires AgentId(i) == AgentId(j)
    ensures i == j
  {
    assert Decimal.Show(i) == AgentId(i)[|AgentPrefix|..];
    assert Decimal.Show(j) == AgentId(j)[|AgentPrefix|..];
    Decimal.ShowInjective(i, j);
  }

  /** `k` is the id of one of the first `n` agents. */
  predicate IsAgentKey(k: string, n: int) {
    ParseAgentId(k).Some? && ParseAgentId(k).value < n
  }

  /**
   * The table built by `for i in range(num_agents)`: after the loop has run
   * for `n` agents the keys are exactly the ids of agents 0 .. n-1, each
   * bound to `spec`. A non-positive `n` leaves the table empty.
   */
  function PolicyGraphs(n: int, spec: PolicySpec): (g: map<string, PolicySpec>)
    ensures forall k :: k in g <==> IsAgentKey(k, n)
    ensures forall k :: k in g ==> g[k] == spec
    ensures |g| == if n < 0 then 0 else n
    decreases n
  {
    if n <= 0 then
      map[]
    else
      var prev := PolicyGraphs(n - 1, spec);
      var id := AgentId(n - 1);
      ParseAgentIdRoundTrip(n - 1);
      assert id !in prev;
      assert forall k :: IsAgentKey(k, n) ==> k in prev || k == id by {
        forall k | IsAgentKey(k, n) && k !in prev
          ensures k == id
        {
          AgentIdCanonical(k, n - 1);
        }
      }
      prev[id := spec]
  }

  /** `policy_mapping_fn`: every agent is served by the policy carrying its own id. */
  function PolicyMapping(agentId: string): string {
    agentId
  }

  /** The table's keys are exactly `"agent-0"` .. `"agent-(n-1)"`. */
  lemma PolicyTableKeys(n: nat, spec: PolicySpec)
    ensures PolicyGraphs(n, spec).Keys == set i: nat | i < n :: AgentId(i)
  {
    var g := PolicyGraphs(n, spec);
    forall k | k in g
      ensures k in set i: nat | i < n :: AgentId(i)
    {
      AgentIdCanonical(k, ParseAgentId(k).value);
    }
    forall i: nat | i < n
      ensures AgentId(i) in g
    {
      ParseAgentIdRoundTrip(i);
    }
  }

  /**
   * The identity mapping routes an agent id to a policy in the table exactly
   * when it is the id of one of the first `n` agents; any other id has no policy.
   */
  lemma MappingRoutesAgents(n: int, spec: PolicySpec, agentId: string)
    ensures PolicyMapping(agentId) in PolicyGraphs(n, spec) <==> IsAgentKey(agentId, n)
    ensures PolicyMapping(agentId) in PolicyGraphs(n, spec) ==> PolicyGraphs(n, spec)[PolicyMapping(agentId)] == spec
  {
  }

  /** Every generated agent id is routed to a policy of the table. */
  lemma GeneratedIdsAreRouted(n: int, spec: PolicySpec, i: nat)
    requires i < n
    ensures PolicyMapping(AgentId(i)) in PolicyGraphs(n, spec)
  {
    ParseAgentIdRoundTrip(i);
  }

  /** Three agents give exactly the ids "agent-0", "agent-1" and "agent-2". */
  lemma ThreeAgents(spec: PolicySpec)
    ensures PolicyGraphs(3, spec).Keys == {"agent-0", "agent-1", "agent-2"}
    ensures PolicyMapping("agent-1") == "agent-1"
  {
    assert AgentId(0) == "agent-0" by { assert Decimal.Show(0) == "0"; }
    assert AgentId(1) == "agent-1" by { assert Decimal.Show(1) == "1"; }
    assert AgentId(2) == "agent-2" by { assert Decimal.Show(2) == "2"; }
    PolicyTableKeys(3, spec);
    var ids := set i: nat | i < 3 :: AgentId(i);
    assert ids == {AgentId(0), AgentId(1), AgentId(2)} by {
      forall k | k in ids
        ensures k in {AgentId(0), AgentId(1), AgentId(2)}
      {
        var i: nat :| i < 3 && k == AgentId(i);
        assert i == 0 || i == 1 || i == 2;
      }
    }
  }
}
