// The context guard: drop the head of an over-budget transcript, then the tool results
// that lost their calls (grain-agent-harness/src/context_guard.rs), under each of its
// policies.
module ContextGuard {
  import opened Messages
  import opened TokenEstimates

  datatype Policy = Identity | KeepRecent(n: nat) | DropOldest

  // h is the least number of messages to drop so that the rest fits, never the last one.
  ghost predicate IsPeel(costs: seq<nat>, budget: nat, from: nat, h: nat) {
    && from <= h <= |costs|
    && (from < |costs| ==> h < |costs|)
    && (SumFrom(costs, h) <= budget || h + 1 >= |costs|)
    && (forall g: nat :: from <= g < h ==> SumFrom(costs, g) > budget)
  }

  function KeepFrom(n: nat, length: nat): (from: nat)
    ensures from <= length && (length - from == n || (from == 0 && length <= n))
  {
    if n < length then length - n else 0
  }

  // ---- Orphan removal ----------------------------------------------------------------

  ghost function WithoutOrphans(ms: seq<AgentMessage>): (out: seq<AgentMessage>)
    ensures |out| <= |ms|
  {
    if ms == [] then []
    else
      var n := |ms| - 1;
      WithoutOrphans(ms[..n]) + if IsOrphan(ms, n) then [] else [ms[n]]
  }

  lemma OrphanOfPrefix(ms: seq<AgentMessage>, n: nat, i: nat)
    requires i < n <= |ms|
    ensures IsOrphan(ms[..n], i) <==> IsOrphan(ms, i)
  {
    forall j | 0 <= j < i
      ensures ms[..n][j] == ms[j]
    {
    }
  }

  lemma PrefixOrphanFree(ms: seq<AgentMessage>, n: nat)
    requires OrphanFree(ms) && n <= |ms|
    ensures OrphanFree(ms[..n])
  {
    var prefix := ms[..n];
    forall i: nat | i < |prefix|
      ensures !IsOrphan(prefix, i)
    {
      OrphanOfPrefix(ms, n, i);
    }
  }

  lemma OrphanInSuffix(ms: seq<AgentMessage>, r: nat, i: nat)
    requires r + i < |ms| && IsOrphan(ms, r + i)
    ensures IsOrphan(ms[r..], i)
  {
    forall j | 0 <= j < i
      ensures ms[r..][j] == ms[r + j]
    {
    }
  }

  lemma {:induction false} OrphanFreeUnchanged(ms: seq<AgentMessage>)
    requires OrphanFree(ms)
    ensures WithoutOrphans(ms) == ms
  {
    if ms != [] {
      var n := |ms| - 1;
      PrefixOrphanFree(ms, n);
      OrphanFreeUnchanged(ms[..n]);
      assert ms == ms[..n] + [ms[n]];
    }
  }

  ghost function CallIdsOf(ms: seq<AgentMessage>): set<string> {
    set j, id | 0 <= j < |ms| && id in CallIds(ms[j]) :: id
  }

  // No call is ever removed, so what counts as answered is the same before and after.
  lemma {:induction false} CallsSurvive(ms: seq<AgentMessage>)
    ensures CallIdsOf(WithoutOrphans(ms)) == CallIdsOf(ms)
  {
    if ms != [] {
      var n := |ms| - 1;
      CallsSurvive(ms[..n]);
      KnownAfter(ms[..n], ms[n]);
      KnownAfter(WithoutOrphans(ms[..n]), ms[n]);
      assert ms == ms[..n] + [ms[n]];
      assert WithoutOrphans(ms[..n]) + [] == WithoutOrphans(ms[..n]);
    }
  }

  lemma {:induction false} WithoutOrphansIsOrphanFree(ms: seq<AgentMessage>)
    ensures OrphanFree(WithoutOrphans(ms))
  {
    if ms != [] {
      var n := |ms| - 1;
      var before := WithoutOrphans(ms[..n]);
      var after := WithoutOrphans(ms);
      WithoutOrphansIsOrphanFree(ms[..n]);
      forall i: nat | i < |after|
        ensures !IsOrphan(after, i)
      {
        assert after[..|before|] == before;
        if i < |before| {
          assert !IsOrphan(before, i);
          OrphanOfPrefix(after, |before|, i);
        } else if IsToolResult(ms[n]) {
          CallsSurvive(ms[..n]);
          KnownMeansCalled(ms, n);
          KnownMeansCalled(after, i);
        }
      }
    }
  }

  method RemoveOrphanToolResults(ms: seq<AgentMessage>) returns (out: seq<AgentMessage>)
    ensures out == WithoutOrphans(ms)
  {
    var known: set<string> := {};
    var keep: seq<bool> := [];
    for i := 0 to |ms|
      invariant known == CallIdsOf(ms[..i])
      invariant |keep| == i
      invariant forall k: nat :: k < i ==> keep[k] == !IsOrphan(ms, k)
    {
      assert ms[..i + 1] == ms[..i] + [ms[i]];
      assert CallIdsOf(ms[..i + 1]) == CallIdsOf(ms[..i]) + CallIds(ms[i]) by {
        KnownAfter(ms[..i], ms[i]);
      }
      if ms[i].Standard? && ms[i].message.Assistant? {
        var calls := Calls(ms[i].message.assistant.content);
        known := known + set c | c in calls :: c.id;
        assert (set c | c in calls :: c.id) == CallIds(ms[i]) by {
          IdsOfCalls(ms[i], calls);
        }
        keep := keep + [true];
      } else if IsToolResult(ms[i]) {
        keep := keep + [ms[i].message.result.callId in known];
        KnownMeansCalled(ms, i);
      } else {
        keep := keep + [true];
      }
    }
    out := [];
    for i := 0 to |ms|
      invariant out == WithoutOrphans(ms[..i])
    {
      assert ms[..i + 1][..i] == ms[..i];
      OrphanOfPrefix(ms, i + 1, i);
      if keep[i] {
        out := out + [ms[i]];
      }
    }
    assert ms[..|ms|] == ms;
  }

  lemma KnownAfter(ms: seq<AgentMessage>, m: AgentMessage)
    ensures CallIdsOf(ms + [m]) == CallIdsOf(ms) + CallIds(m)
  {
    var all := ms + [m];
    forall id | id in CallIdsOf(ms) + CallIds(m)
      ensures id in CallIdsOf(all)
    {
      if id in CallIds(m) {
        assert id in CallIds(all[|ms|]);
      } else {
        var j :| 0 <= j < |ms| && id in CallIds(ms[j]);
        assert id in CallIds(all[j]);
      }
    }
  }

  lemma KnownMeansCalled(ms: seq<AgentMessage>, i: nat)
    requires i < |ms| && IsToolResult(ms[i])
    ensures ms[i].message.result.callId in CallIdsOf(ms[..i]) <==> !IsOrphan(ms, i)
  {
    var id := ms[i].message.result.callId;
    if !IsOrphan(ms, i) {
      var j :| 0 <= j < i && id in CallIds(ms[j]);
      assert id in CallIds(ms[..i][j]);
    }
    if id in CallIdsOf(ms[..i]) {
      var j :| 0 <= j < i && id in CallIds(ms[..i][j]);
      assert id in CallIds(ms[j]);
    }
  }

  // ---- The policy --------------------------------------------------------------------

  // What the guard lets through: everything when it fits; otherwise a suffix chosen by
  // the policy, without the results whose calls are not in that suffix.
  ghost predicate IsGuarded(ms: seq<AgentMessage>, budget: nat, policy: Policy, est: Estimator, out: seq<AgentMessage>) {
    var costs := est.Costs(ms);
    if est.EstimateMessages(ms) <= budget then out == ms
    else match policy
      case Identity => out == WithoutOrphans(ms)
      case KeepRecent(n) =>
        exists h: nat :: IsPeel(costs, budget, KeepFrom(n, |ms|), h) && out == WithoutOrphans(ms[h..])
      case DropOldest =>
        exists h: nat :: IsPeel(costs, budget, 0, h) && out == WithoutOrphans(ms[h..])
  }

  method ApplyPolicy(ms: seq<AgentMessage>, budget: nat, policy: Policy, est: Estimator)
    returns (out: seq<AgentMessage>)
    ensures IsGuarded(ms, budget, policy, est, out)
  {
    var costs := est.Costs(ms);
    var total := SumTail(costs, 0);
    est.CostsSumToEstimate(ms);
    if total <= budget {
      return ms;
    }
    var truncated := ms;
    match policy {
      case Identity =>
      case KeepRecent(n) =>
        var drop := KeepFrom(n, |ms|);
        var kept := SumTail(costs, drop);
        var head := Peel(costs, budget, drop, kept);
        truncated := ms[head..];
      case DropOldest =>
        var head := Peel(costs, budget, 0, total);
        truncated := ms[head..];
    }
    out := RemoveOrphanToolResults(truncated);
  }

  // The transform the agent is given: no known window, no guard; otherwise what the window
  // leaves after the headroom and the system prompt.
  method Guard(ms: seq<AgentMessage>, window: Option<nat>, headroom: nat, overhead: nat, policy: Policy, est: Estimator)
    returns (out: seq<AgentMessage>)
    ensures window.None? ==> out == ms
    ensures window.Some? ==> exists budget: nat :: IsGuarded(ms, budget, policy, est, out)
                               && if headroom + overhead <= window.value then budget + headroom + overhead == window.value else budget == 0
  {
    if window.None? {
      return ms;
    }
    var free := if window.value >= headroom then window.value - headroom else 0;
    var budget := if free >= overhead then free - overhead else 0;
    out := ApplyPolicy(ms, budget, policy, est);
  }

  method SumTail(costs: seq<nat>, from: nat) returns (total: nat)
    requires from <= |costs|
    ensures total == SumFrom(costs, from)
  {
    total := 0;
    var i := |costs|;
    while i > from
      invariant from <= i <= |costs|
      invariant total == SumFrom(costs, i)
    {
      i := i - 1;
      total := total + costs[i];
    }
  }

  // Drops from the front while more than one message is left and the rest does not fit.
  method Peel(costs: seq<nat>, budget: nat, from: nat, total: nat) returns (head: nat)
    requires from <= |costs| && total == SumFrom(costs, from)
    ensures IsPeel(costs, budget, from, head)
  {
    var running := total;
    head := from;
    while |costs| - head > 1 && running > budget
      invariant from <= head <= |costs|
      invariant from < |costs| ==> head < |costs|
      invariant running == SumFrom(costs, head)
      invariant forall g: nat :: from <= g < head ==> SumFrom(costs, g) > budget
    {
      running := running - costs[head];
      head := head + 1;
    }
  }

  // ---- What the guard promises -------------------------------------------------------

  lemma PeelUnique(costs: seq<nat>, budget: nat, from: nat, a: nat, b: nat)
    requires IsPeel(costs, budget, from, a) && IsPeel(costs, budget, from, b)
    ensures a == b
  {
  }

  // DropOldest keeps the longest suffix that fits: a longer one is over budget.
  lemma PeelIsLongestFittingSuffix(ms: seq<AgentMessage>, est: Estimator, budget: nat, h: nat, g: nat)
    requires IsPeel(est.Costs(ms), budget, 0, h) && g <= |ms|
    requires est.EstimateMessages(ms[g..]) <= budget && g < |ms|
    ensures h <= g
  {
    est.CostsOfSuffix(ms, g);
  }

  lemma {:induction false} RemovalSaves(ms: seq<AgentMessage>, est: Estimator)
    ensures est.EstimateMessages(WithoutOrphans(ms)) <= est.EstimateMessages(ms)
  {
    if ms != [] {
      var n := |ms| - 1;
      RemovalSaves(ms[..n], est);
      assert ms == ms[..n] + [ms[n]];
      EstimateSnoc(ms[..n], ms[n], est);
      EstimateSnoc(WithoutOrphans(ms[..n]), ms[n], est);
      assert WithoutOrphans(ms[..n]) + [] == WithoutOrphans(ms[..n]);
    }
  }

  lemma {:induction false} EstimateSnoc(ms: seq<AgentMessage>, m: AgentMessage, est: Estimator)
    ensures est.EstimateMessages(ms + [m]) == est.EstimateMessages(ms) + est.estimate(m) + est.perMessageOverhead
  {
    if ms == [] {
      assert ms + [m] == [m];
      assert est.ContentTokens([m]) == est.estimate(m) + est.ContentTokens([]);
    } else {
      assert (ms + [m])[1..] == ms[1..] + [m];
      EstimateSnoc(ms[1..], m, est);
      FramingStep(est.perMessageOverhead, |ms|);
    }
  }

  lemma FramingStep(overhead: nat, n: nat)
    requires n > 0
    ensures overhead * n == overhead * (n - 1) + overhead
    ensures overhead * (n + 1) == overhead * n + overhead
  {
  }

  // The result fits the budget unless the policy was left with a single message.
  lemma GuardedFitsOrSingle(ms: seq<AgentMessage>, budget: nat, policy: Policy, est: Estimator, out: seq<AgentMessage>)
    requires IsGuarded(ms, budget, policy, est, out) && !policy.Identity?
    ensures est.EstimateMessages(out) <= budget || |out| <= 1
  {
    if est.EstimateMessages(ms) > budget {
      var from := if policy.DropOldest? then 0 else KeepFrom(policy.n, |ms|);
      var h: nat :| IsPeel(est.Costs(ms), budget, from, h) && out == WithoutOrphans(ms[h..]);
      est.CostsOfSuffix(ms, h);
      RemovalSaves(ms[h..], est);
    }
  }

  // So the request fits the window with its headroom and its system prompt.
  lemma GuardedFitsWindow(ms: seq<AgentMessage>, window: nat, headroom: nat, overhead: nat, budget: nat, policy: Policy, est: Estimator,
                          out: seq<AgentMessage>)
    requires headroom + overhead + budget == window && IsGuarded(ms, budget, policy, est, out) && !policy.Identity?
    ensures est.EstimateMessages(out) + headroom + overhead <= window || |out| <= 1
  {
    GuardedFitsOrSingle(ms, budget, policy, est, out);
  }

  // Keeping the most recent never keeps more of them than asked for.
  lemma KeepRecentKeepsSuffix(ms: seq<AgentMessage>, budget: nat, n: nat, est: Estimator, out: seq<AgentMessage>)
    requires IsGuarded(ms, budget, KeepRecent(n), est, out) && est.EstimateMessages(ms) > budget
    ensures |out| <= n
    ensures exists h: nat :: h <= |ms| && |ms| - h <= n && out == WithoutOrphans(ms[h..])
                && (h > 0 && |ms| - h < n ==> est.EstimateMessages(ms[h - 1..]) > budget)
  {
    var h: nat :| IsPeel(est.Costs(ms), budget, KeepFrom(n, |ms|), h) && out == WithoutOrphans(ms[h..]);
    if h > 0 {
      est.CostsOfSuffix(ms, h - 1);
    }
  }

  // What the guard had to shorten has no orphan left.
  lemma GuardedIsOrphanFree(ms: seq<AgentMessage>, budget: nat, policy: Policy, est: Estimator, out: seq<AgentMessage>)
    requires IsGuarded(ms, budget, policy, est, out) && est.EstimateMessages(ms) > budget
    ensures OrphanFree(out)
  {
    match policy
    case Identity => WithoutOrphansIsOrphanFree(ms);
    case KeepRecent(n) =>
      var h: nat :| IsPeel(est.Costs(ms), budget, KeepFrom(n, |ms|), h) && out == WithoutOrphans(ms[h..]);
      WithoutOrphansIsOrphanFree(ms[h..]);
    case DropOldest =>
      var h: nat :| IsPeel(est.Costs(ms), budget, 0, h) && out == WithoutOrphans(ms[h..]);
      WithoutOrphansIsOrphanFree(ms[h..]);
  }

  // Guarding a guarded transcript changes nothing.
  lemma GuardIdempotent(ms: seq<AgentMessage>, budget: nat, policy: Policy, est: Estimator,
                        once: seq<AgentMessage>, twice: seq<AgentMessage>)
    requires IsGuarded(ms, budget, policy, est, once) && IsGuarded(once, budget, policy, est, twice)
    ensures twice == once
  {
    if est.EstimateMessages(once) > budget {
      if est.EstimateMessages(ms) > budget {
        GuardedIsOrphanFree(ms, budget, policy, est, once);
      }
      OrphanFreeUnchanged(once);
      if !policy.Identity? {
        GuardedFitsOrSingle(ms, budget, policy, est, once);
        if policy == KeepRecent(0) {
          KeepNothing(ms, budget, est, once);
        } else {
          SingleStays(once, budget, policy, est, twice);
        }
      }
    }
  }

  lemma {:induction false} SingleStays(once: seq<AgentMessage>, budget: nat, policy: Policy, est: Estimator, twice: seq<AgentMessage>)
    requires IsGuarded(once, budget, policy, est, twice)
    requires |once| <= 1 && WithoutOrphans(once) == once && policy != KeepRecent(0)
    ensures twice == once
  {
    if est.EstimateMessages(once) > budget && !policy.Identity? {
      var from := if policy.DropOldest? then 0 else KeepFrom(policy.n, |once|);
      var h := DroppedBy(once, budget, policy, est, twice);
      NothingToPeel(est.Costs(once), budget, from, h);
      assert once[0..] == once;
    }
  }

  lemma {:induction false} DroppedBy(ms: seq<AgentMessage>, budget: nat, policy: Policy, est: Estimator, out: seq<AgentMessage>) returns (h: nat)
    requires IsGuarded(ms, budget, policy, est, out) && est.EstimateMessages(ms) > budget && !policy.Identity?
    ensures IsPeel(est.Costs(ms), budget, if policy.DropOldest? then 0 else KeepFrom(policy.n, |ms|), h)
    ensures out == WithoutOrphans(ms[h..])
  {
    if policy.DropOldest? {
      h :| IsPeel(est.Costs(ms), budget, 0, h) && out == WithoutOrphans(ms[h..]);
    } else {
      h :| IsPeel(est.Costs(ms), budget, KeepFrom(policy.n, |ms|), h) && out == WithoutOrphans(ms[h..]);
    }
  }

  lemma NothingToPeel(costs: seq<nat>, budget: nat, from: nat, h: nat)
    requires |costs| <= 1 && (|costs| == 1 ==> from == 0) && IsPeel(costs, budget, from, h)
    ensures h == 0
  {
  }

  lemma KeepNothing(ms: seq<AgentMessage>, budget: nat, est: Estimator, out: seq<AgentMessage>)
    requires est.EstimateMessages(ms) > budget && IsGuarded(ms, budget, KeepRecent(0), est, out)
    ensures out == [] && est.EstimateMessages(out) == 0
  {
    assert KeepFrom(0, |ms|) == |ms|;
  }

  ghost predicate LeadingResults(ms: seq<AgentMessage>, r: nat) {
    && r <= |ms|
    && (forall i :: 0 <= i < r ==> IsToolResult(ms[i]))
    && (r < |ms| ==> !IsToolResult(ms[r]))
  }

  // Cutting the head of a transcript as the loop writes it orphans only the results the
  // remaining tail starts with, so only those are removed and the tail is paired again.
  lemma OnlyLeadingResultsRemoved(ms: seq<AgentMessage>, h: nat, r: nat)
    requires DirectlyAnswered(ms) && h <= |ms| && LeadingResults(ms[h..], r)
    ensures WithoutOrphans(ms[h..]) == ms[h + r..]
    ensures DirectlyAnswered(ms[h + r..])
  {
    var tail := ms[h..];
    SuffixKeepsPairing(ms, h + r);
    DirectlyAnsweredIsOrphanFree(ms[h + r..]);
    assert tail[r..] == ms[h + r..];
    LeadingRunDropped(tail, r);
  }

  lemma {:induction false} LeadingRunDropped(tail: seq<AgentMessage>, r: nat)
    requires r <= |tail| && forall i :: 0 <= i < r ==> IsToolResult(tail[i])
    requires OrphanFree(tail[r..])
    ensures WithoutOrphans(tail) == tail[r..]
    decreases |tail|
  {
    if tail != [] {
      var n := |tail| - 1;
      if n < r {
        assert IsOrphan(tail, n);
        LeadingRunDropped(tail[..n], n);
      } else {
        var rest := tail[r..];
        assert tail[..n][r..] == rest[..n - r];
        PrefixOrphanFree(rest, n - r);
        LeadingRunDropped(tail[..n], r);
        if IsOrphan(tail, n) {
          OrphanInSuffix(tail, r, n - r);
          assert false;
        }
        assert tail[r..] == tail[r..n] + [tail[n]];
      }
    }
  }

  // A suffix loses every message to orphan removal exactly when it holds only results.
  lemma EmptiedIff(tail: seq<AgentMessage>)
    ensures WithoutOrphans(tail) == [] <==> forall i :: 0 <= i < |tail| ==> IsToolResult(tail[i])
  {
    if forall i :: 0 <= i < |tail| ==> IsToolResult(tail[i]) {
      LeadingRunDropped(tail, |tail|);
    }
    if WithoutOrphans(tail) == [] {
      EmptyMeansAllResults(tail);
    }
  }

  // The last message is a result, and from `from` on no suffix that starts with anything
  // else fits the budget.
  ghost predicate OnlyResultsFit(ms: seq<AgentMessage>, costs: seq<nat>, budget: nat, from: nat)
    requires |costs| == |ms|
  {
    && ms != [] && IsToolResult(ms[|ms| - 1])
    && forall i :: from <= i < |ms| && !IsToolResult(ms[i]) ==> SumFrom(costs, i) > budget
  }

  lemma PeeledToResultsIff(ms: seq<AgentMessage>, costs: seq<nat>, budget: nat, from: nat, h: nat)
    requires |costs| == |ms| && from < |ms| && IsPeel(costs, budget, from, h)
    ensures (forall i :: h <= i < |ms| ==> IsToolResult(ms[i])) <==> OnlyResultsFit(ms, costs, budget, from)
  {
    if OnlyResultsFit(ms, costs, budget, from) {
      forall i | h <= i < |ms|
        ensures IsToolResult(ms[i])
      {
        SumFromAntitone(costs, h, i);
      }
    }
  }

  // The guard returns nothing exactly here. It takes an empty transcript, or one over budget
  // that the policy cuts down to results alone; `KeepRecent(0)` keeps nothing in any case.
  lemma GuardedEmptyIff(ms: seq<AgentMessage>, budget: nat, policy: Policy, est: Estimator, out: seq<AgentMessage>)
    requires IsGuarded(ms, budget, policy, est, out)
    ensures out == [] <==>
      if est.EstimateMessages(ms) <= budget then ms == []
      else match policy
        case Identity => forall i :: 0 <= i < |ms| ==> IsToolResult(ms[i])
        case KeepRecent(n) => n == 0 || OnlyResultsFit(ms, est.Costs(ms), budget, KeepFrom(n, |ms|))
        case DropOldest => OnlyResultsFit(ms, est.Costs(ms), budget, 0)
  {
    if est.EstimateMessages(ms) > budget {
      if policy.Identity? {
        EmptiedIff(ms);
      } else if policy == KeepRecent(0) {
        KeepNothing(ms, budget, est, out);
      } else {
        var h := DroppedBy(ms, budget, policy, est, out);
        assert ms != [];
        EmptiedIff(ms[h..]);
        PeeledToResultsIff(ms, est.Costs(ms), budget, if policy.DropOldest? then 0 else KeepFrom(policy.n, |ms|), h);
        assert forall i :: h <= i < |ms| ==> ms[i] == ms[h..][i - h];
      }
    }
  }

  lemma {:induction false} EmptyMeansAllResults(ms: seq<AgentMessage>)
    requires WithoutOrphans(ms) == []
    ensures forall i :: 0 <= i < |ms| ==> IsToolResult(ms[i])
  {
    if ms != [] {
      var n := |ms| - 1;
      EmptyMeansAllResults(ms[..n]);
      forall i | 0 <= i < |ms|
        ensures IsToolResult(ms[i])
      {
        if i < n {
          assert ms[..n][i] == ms[i];
        }
      }
    }
  }

  // It happens: the one message left by an oversized transcript may be a result.
  lemma GuardMayReturnNothing()
    ensures var asks := Standard(Assistant(AssistantMessage([Call(ToolCall("c1", "bash", ""))], "p", "m", ToolUse, None)));
            var answers := Standard(ToolResult(ToolResultMessage("c1", "bash", [], false)));
            IsGuarded([asks, answers], 1, DropOldest, Estimator(m => 5, 0), [])
  {
    var asks := Standard(Assistant(AssistantMessage([Call(ToolCall("c1", "bash", ""))], "p", "m", ToolUse, None)));
    var answers := Standard(ToolResult(ToolResultMessage("c1", "bash", [], false)));
    var ms := [asks, answers];
    var est := Estimator(m => 5, 0);
    assert ms[1..] == [answers];
    assert IsOrphan([answers], 0);
    assert est.Costs(ms)[1] == 5;
    assert SumFrom(est.Costs(ms), 1) == 5;
    assert SumFrom(est.Costs(ms), 0) == 10;
    est.CostsSumToEstimate(ms);
    assert IsPeel(est.Costs(ms), 1, 0, 1);
    assert WithoutOrphans([answers]) == [];
  }
}
