// Retry with a smaller context when the provider reports an overflow
// (grain-agent-harness/src/retry_overflow.rs): which messages go at once, how often the
// provider is called, and what every context sent keeps.
module OverflowRetry {
  import opened Messages

  // The wrapped provider: what the nth call does with the context it is sent. A call
  // fails before streaming, or streams a finite sequence of events.
  datatype StreamEvent = Delta(text: string) | Done(text: string) | ErrorEvent(error: string)
  datatype Outcome = Refused(error: string) | Streamed(events: seq<StreamEvent>)

  function Lift(ms: seq<Message>): (out: seq<AgentMessage>)
    ensures |out| == |ms|
    ensures forall i :: 0 <= i < |ms| ==> out[i] == Standard(ms[i])
  {
    if ms == [] then [] else [Standard(ms[0])] + Lift(ms[1..])
  }

  lemma LiftDrop(ms: seq<Message>, k: nat)
    requires k <= |ms|
    ensures Lift(ms[k..]) == Lift(ms)[k..]
  {
  }

  // How many messages go at once: a call takes the results that directly follow and
  // name one of its calls with it.
  ghost predicate IsSafeDrop(ms: seq<Message>, n: nat) {
    if ms == [] then n == 0
    else if CallIds(Standard(ms[0])) == {} then n == 1
    else
      && 1 <= n <= |ms|
      && (forall i :: 1 <= i < n ==> ms[i].ToolResult? && ms[i].result.callId in CallIds(Standard(ms[0])))
      && (n < |ms| ==> !(ms[n].ToolResult? && ms[n].result.callId in CallIds(Standard(ms[0]))))
  }

  method DropOldestSafe(ms: seq<Message>) returns (rest: seq<Message>, dropped: nat)
    ensures dropped <= |ms| && IsSafeDrop(ms, dropped) && rest == ms[dropped..]
  {
    if ms == [] {
      return ms, 0;
    }
    match ms[0] {
      case ToolResult(_) =>
        return ms[1..], 1;
      case User(_) =>
        return ms[1..], 1;
      case Assistant(a) =>
        var calls := Calls(a.content);
        var ids := set c | c in calls :: c.id;
        IdsOfCalls(Standard(ms[0]), calls);
        if ids == {} {
          return ms[1..], 1;
        }
        dropped := ResultsTo(ms, ids);
        return ms[dropped..], dropped;
    }
  }

  method ResultsTo(ms: seq<Message>, ids: set<string>) returns (end: nat)
    requires ms != []
    ensures 1 <= end <= |ms|
    ensures forall i :: 1 <= i < end ==> ms[i].ToolResult? && ms[i].result.callId in ids
    ensures end < |ms| ==> !(ms[end].ToolResult? && ms[end].result.callId in ids)
  {
    end := 1;
    while end < |ms| && ms[end].ToolResult? && ms[end].result.callId in ids
      invariant 1 <= end <= |ms|
      invariant forall i :: 1 <= i < end ==> ms[i].ToolResult? && ms[i].result.callId in ids
    {
      end := end + 1;
    }
  }

  // Dropping never leaves a result at the head of a transcript whose results directly
  // follow their calls: its owner would be the dropped head.
  lemma {:induction false} HeadIsNoResult(ms: seq<Message>, n: nat)
    requires DirectlyAnswered(Lift(ms)) && 0 < n < |ms| && IsSafeDrop(ms, n)
    ensures !ms[n].ToolResult?
  {
    var lifted := Lift(ms);
    assert IsToolResult(lifted[n]) ==> Answered(lifted, n);
  }

  lemma {:induction false} SafeDropKeepsPairing(ms: seq<Message>, n: nat)
    requires DirectlyAnswered(Lift(ms)) && n <= |ms| && IsSafeDrop(ms, n)
    ensures DirectlyAnswered(Lift(ms[n..]))
  {
    if ms != [] {
      if n < |ms| {
        HeadIsNoResult(ms, n);
      }
      SuffixKeepsPairing(Lift(ms), n);
      LiftDrop(ms, n);
    }
  }

  predicate IsOverflow(isOverflow: string -> bool, events: seq<StreamEvent>) {
    events != [] && events[|events| - 1].ErrorEvent? && isOverflow(events[|events| - 1].error)
  }

  // Only a stream that ends in an overflow error overflowed, whatever came before.
  lemma OverflowIff(isOverflow: string -> bool, events: seq<StreamEvent>)
    ensures IsOverflow(isOverflow, events) <==> exists before, error :: events == before + [ErrorEvent(error)] && isOverflow(error)
  {
    if IsOverflow(isOverflow, events) {
      var n := |events| - 1;
      assert events == events[..n] + [ErrorEvent(events[n].error)];
    }
  }

  // The contexts sent: each one the safe drop of the one before, which overflowed while
  // still above the floor.
  ghost predicate IsRetryChain(sent: seq<seq<Message>>, inner: (nat, seq<Message>) -> Outcome,
                               isOverflow: string -> bool, minMessages: nat)
  {
    forall k: nat :: k + 1 < |sent| ==> RetriesTo(k, sent[k], sent[k + 1], inner, isOverflow, minMessages)
  }

  ghost predicate RetriesTo(k: nat, ctx: seq<Message>, next: seq<Message>, inner: (nat, seq<Message>) -> Outcome,
                            isOverflow: string -> bool, minMessages: nat)
  {
    && inner(k, ctx).Streamed? && IsOverflow(isOverflow, inner(k, ctx).events)
    && |ctx| > minMessages
    && exists n: nat :: n <= |ctx| && IsSafeDrop(ctx, n) && next == ctx[n..]
  }

  // The retry loop. It answers with exactly what the last call produced, after at most
  // maxRetries + 1 calls, and gives up only on a result it may not retry; the code after
  // the source's loop is never reached.
  method Stream(context: seq<Message>, maxRetries: nat, minMessages: nat, isOverflow: string -> bool,
                inner: (nat, seq<Message>) -> Outcome)
    returns (result: Outcome, sent: seq<seq<Message>>)
    ensures 1 <= |sent| <= maxRetries + 1
    ensures sent[0] == context
    ensures IsRetryChain(sent, inner, isOverflow, minMessages)
    ensures result == inner(|sent| - 1, sent[|sent| - 1])
    ensures result.Streamed? && IsOverflow(isOverflow, result.events) ==>
              |sent[|sent| - 1]| <= minMessages || |sent| == maxRetries + 1
  {
    var ctx := context;
    sent := [];
    for attempt := 0 to maxRetries + 1
      invariant |sent| == attempt
      invariant attempt == 0 ==> ctx == context
      invariant attempt > 0 ==> sent[0] == context
      invariant attempt <= maxRetries
      invariant IsRetryChain(sent, inner, isOverflow, minMessages)
      invariant attempt > 0 ==> RetriesTo(attempt - 1, sent[attempt - 1], ctx, inner, isOverflow, minMessages)
    {
      sent := sent + [ctx];
      result := inner(attempt, ctx);
      if result.Refused? {
        return;
      }
      if IsOverflow(isOverflow, result.events) && |ctx| > minMessages && attempt < maxRetries {
        var rest, dropped := DropOldestSafe(ctx);
        ctx := rest;
        continue;
      }
      return;
    }
    assert false;
  }

  // Every context sent is a suffix of the original, strictly shorter than the one before.
  lemma {:induction false} RetryChainShrinks(sent: seq<seq<Message>>, inner: (nat, seq<Message>) -> Outcome,
                                             isOverflow: string -> bool, minMessages: nat, k: nat)
    requires IsRetryChain(sent, inner, isOverflow, minMessages) && k < |sent|
    ensures |sent[k]| + k <= |sent[0]|
    ensures sent[k] == sent[0][|sent[0]| - |sent[k]|..]
    decreases k
  {
    if k > 0 {
      RetryChainShrinks(sent, inner, isOverflow, minMessages, k - 1);
      var ctx, next := sent[k - 1], sent[(k - 1) + 1];
      assert RetriesTo(k - 1, ctx, next, inner, isOverflow, minMessages);
      var n: nat :| n <= |ctx| && IsSafeDrop(ctx, n) && next == ctx[n..];
      assert n > 0;
    }
  }

  // No context sent holds an orphan result when the original has its results directly
  // after their calls.
  lemma {:induction false} RetryChainKeepsPairing(sent: seq<seq<Message>>, inner: (nat, seq<Message>) -> Outcome,
                                                  isOverflow: string -> bool, minMessages: nat, k: nat)
    requires IsRetryChain(sent, inner, isOverflow, minMessages) && k < |sent|
    requires DirectlyAnswered(Lift(sent[0]))
    ensures DirectlyAnswered(Lift(sent[k])) && OrphanFree(Lift(sent[k]))
    decreases k
  {
    if k > 0 {
      RetryChainKeepsPairing(sent, inner, isOverflow, minMessages, k - 1);
      var ctx, next := sent[k - 1], sent[(k - 1) + 1];
      assert RetriesTo(k - 1, ctx, next, inner, isOverflow, minMessages);
      var n: nat :| n <= |ctx| && IsSafeDrop(ctx, n) && next == ctx[n..];
      SafeDropKeepsPairing(ctx, n);
    }
    DirectlyAnsweredIsOrphanFree(Lift(sent[k]));
  }

  predicate AnswersHead(ms: seq<Message>, i: nat)
    requires 0 < i < |ms|
  {
    ms[i].ToolResult? && ms[0].Assistant? && exists c :: c in ms[0].assistant.content && c.Call? && c.call.id == ms[i].result.callId
  }

  // min_messages gates a drop, it does not bound one: a context above the floor goes below
  // it exactly when its head is a call and results to that call reach down to the floor.
  lemma FloorCrossedIff(ctx: seq<Message>, minMessages: nat, n: nat)
    requires |ctx| > minMessages && n <= |ctx| && IsSafeDrop(ctx, n)
    ensures |ctx[n..]| < minMessages <==>
      minMessages > 0 && forall i :: 1 <= i <= |ctx| - minMessages ==> AnswersHead(ctx, i)
  {
    forall i | 1 <= i < |ctx|
      ensures AnswersHead(ctx, i) <==> ctx[i].ToolResult? && ctx[i].result.callId in CallIds(Standard(ctx[0]))
    {
    }
    if minMessages > 0 && forall i :: 1 <= i <= |ctx| - minMessages ==> AnswersHead(ctx, i) {
      assert AnswersHead(ctx, 1);
      assert n < |ctx| ==> !AnswersHead(ctx, n);
    }
  }

  lemma FloorMayBeCrossed()
    ensures var ctx := [Assistant(AssistantMessage([Call(ToolCall("c1", "bash", ""))], "p", "m", ToolUse, None)),
                        ToolResult(ToolResultMessage("c1", "bash", [], false)),
                        User([UserText("go")])];
            |ctx| > 2 && IsSafeDrop(ctx, 2) && |ctx[2..]| < 2
  {
    var a := AssistantMessage([Call(ToolCall("c1", "bash", ""))], "p", "m", ToolUse, None);
    assert Call(ToolCall("c1", "bash", "")) in a.content;
    assert "c1" in CallIds(Standard(Assistant(a)));
  }
}
