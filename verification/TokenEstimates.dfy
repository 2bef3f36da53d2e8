// Token accounting shared by the compaction policy and the context guard
// (grain-agent-harness/src/context_guard.rs). The tokenizer is any function.
module TokenEstimates {
  import opened Messages

  datatype Estimator = Estimator(estimate: AgentMessage -> nat, perMessageOverhead: nat)
  {
    // Content of every message plus one framing charge a message.
    function EstimateMessages(ms: seq<AgentMessage>): nat {
      ContentTokens(ms) + perMessageOverhead * |ms|
    }

    function ContentTokens(ms: seq<AgentMessage>): nat {
      if ms == [] then 0 else estimate(ms[0]) + ContentTokens(ms[1..])
    }

    // The per-message charges the policies precompute.
    function Costs(ms: seq<AgentMessage>): (costs: seq<nat>)
      ensures |costs| == |ms|
    {
      if ms == [] then [] else [estimate(ms[0]) + perMessageOverhead] + Costs(ms[1..])
    }

    lemma {:induction false} CostsDrop(ms: seq<AgentMessage>, k: nat)
      requires k <= |ms|
      ensures Costs(ms)[k..] == Costs(ms[k..])
    {
      if k > 0 {
        CostsDrop(ms[1..], k - 1);
        assert Costs(ms)[k..] == Costs(ms[1..])[k - 1..];
        assert ms[k..] == ms[1..][k - 1..];
      }
    }

    // Charging framing message by message agrees with charging it for the whole transcript.
    lemma {:induction false} CostsSumToEstimate(ms: seq<AgentMessage>)
      ensures SumFrom(Costs(ms), 0) == EstimateMessages(ms)
    {
      if ms != [] {
        CostsSumToEstimate(ms[1..]);
        assert Costs(ms)[1..] == Costs(ms[1..]);
        SumFromDrop(Costs(ms), 1, 0);
        assert perMessageOverhead * |ms| == perMessageOverhead + perMessageOverhead * (|ms| - 1);
      }
    }

    lemma CostsOfSuffix(ms: seq<AgentMessage>, k: nat)
      requires k <= |ms|
      ensures EstimateMessages(ms[k..]) == SumFrom(Costs(ms), k)
    {
      CostsSumToEstimate(ms[k..]);
      CostsDrop(ms, k);
      SumFromDrop(Costs(ms), k, 0);
    }
  }
}
