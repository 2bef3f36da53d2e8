// What the turns of a run do, one after the other (agent_loop.rs `run_loop`): which turn is
// the last, what each adds, and what is left in the queues.
module Turns {
  import opened Messages
  import opened AgentEvents
  import opened MessageQueues
  import opened AgentState
  import opened Streaming
  import ToolBatch
  import ToolSchedule

  // Everything outside the loop that one turn meets: the provider's response, the
  // cancellation polls and the schedule of its batch, what the hooks decide, and what
  // setters do to the queues before the loop next polls them.
  datatype Turn = Turn(
    response: Response,
    polls: nat -> ToolBatch.Polls,
    schedules: nat -> seq<ToolSchedule.Step>,
    hook: seq<AgentMessage> -> Option<seq<AgentMessage>>,
    stop: bool,
    beforeSteering: seq<QueueOp>,
    beforeFollowUp: seq<QueueOp>)

  const NoTurn := Turn(Response.Refused("no response"), (_: nat) => ToolBatch.Polls(false, false, false),
    (_: nat) => [], (_: seq<AgentMessage>) => None, false, [], [])

  // A provider that has nothing more to say refuses, which ends the run.
  function TurnAt(script: seq<Turn>, k: nat): (turn: Turn)
    ensures k >= |script| ==> turn.response.Refused?
  {
    if k < |script| then script[k] else NoTurn
  }

  // What the loop holds between two turns: the queues, the messages to be injected next, and
  // the context it sends.
  datatype Moment = Moment(queues: Queues, pending: seq<AgentMessage>, context: seq<AgentMessage>)

  // What a turn makes of its reply's calls: their results, and whether the reply to them is
  // to be asked for.
  datatype Answer = Answer(results: seq<ToolResultMessage>, calls: bool)

  datatype Record = Record(before: Moment, answer: Answer)

  // Nothing is executed for a reply that failed, that makes no calls, or that was cut off;
  // only the last is told so and sent back. Otherwise the batch decides.
  ghost predicate IsAnswer(box: ToolBatch.Toolbox, turn: Turn, reply: AssistantMessage, answer: Answer) {
    var calls := Calls(reply.content);
    if reply.stopReason.Error? || reply.stopReason.Aborted? || calls == [] then answer == Answer([], false)
    else if reply.stopReason.Length? then answer == Answer(ToolSchedule.CutOff(calls), true)
    else ToolBatch.IsBatch(ToolBatch.ExecutorOf(box), calls, turn.polls, ToolBatch.Batch(answer.results, !answer.calls))
  }

  lemma AnswerUnique(box: ToolBatch.Toolbox, turn: Turn, reply: AssistantMessage, a: Answer, b: Answer)
    requires IsAnswer(box, turn, reply, a) && IsAnswer(box, turn, reply, b)
    ensures a == b
  {
    var calls := Calls(reply.content);
    if calls != [] && !Failed(reply) && !reply.stopReason.Length? {
      ToolBatch.BatchUnique(ToolBatch.ExecutorOf(box), calls, turn.polls,
        ToolBatch.Batch(a.results, !a.calls), ToolBatch.Batch(b.results, !b.calls));
    }
  }

  // The messages a turn adds to the run.
  ghost function Adds(r: Record, model: Model, turn: Turn): seq<AgentMessage> {
    r.before.pending + [AssistantMsg(FinalMessage(model, turn.response))] + ResultMsgs(r.answer.results)
  }

  // The context gets them too, and the partial replies a stream leaves behind.
  ghost function ContextWith(r: Record, model: Model, turn: Turn): seq<AgentMessage> {
    r.before.context + r.before.pending + Lift(Stale(turn.response)) + [AssistantMsg(FinalMessage(model, turn.response))]
    + ResultMsgs(r.answer.results)
  }

  ghost function Hooked(hook: seq<AgentMessage> -> Option<seq<AgentMessage>>, context: seq<AgentMessage>): seq<AgentMessage> {
    if hook(context).Some? then hook(context).value else context
  }

  // A failed reply ends the run before the hooks have their say.
  ghost predicate Fails(model: Model, turn: Turn) {
    var reason := FinalMessage(model, turn.response).stopReason;
    reason.Error? || reason.Aborted?
  }

  ghost predicate Ends(model: Model, turn: Turn) {
    Fails(model, turn) || turn.stop
  }

  ghost function WhereItEnds(r: Record, model: Model, turn: Turn): Moment {
    var context := ContextWith(r, model, turn);
    Moment(r.before.queues, [], if Fails(model, turn) then context else Hooked(turn.hook, context))
  }

  // Otherwise the steering queue is polled,
  ghost function AfterSteering(r: Record, model: Model, turn: Turn): Moment {
    var qs := OpsOn(r.before.queues, turn.beforeSteering);
    Moment(qs.(steering := Rest(qs.steering)), Front(qs.steering), Hooked(turn.hook, ContextWith(r, model, turn)))
  }

  // and, with no calls to go back with and nothing steered, the follow-up queue.
  ghost function AfterFollowUp(m: Moment, turn: Turn): Moment {
    var qs := OpsOn(m.queues, turn.beforeFollowUp);
    Moment(qs.(followUp := Rest(qs.followUp)), Front(qs.followUp), m.context)
  }

  ghost function MomentAfter(r: Record, model: Model, turn: Turn): Moment {
    if Ends(model, turn) then WhereItEnds(r, model, turn)
    else
      var m := AfterSteering(r, model, turn);
      if r.answer.calls || m.pending != [] then m else AfterFollowUp(m, turn)
  }

  ghost predicate GoesOn(r: Record, model: Model, turn: Turn) {
    !Ends(model, turn) && (r.answer.calls || MomentAfter(r, model, turn).pending != [])
  }

  // --- A run of turns ---

  ghost predicate IsTurn(history: seq<Record>, box: ToolBatch.Toolbox, model: Model, script: seq<Turn>, k: nat)
    requires k < |history|
  {
    var turn := TurnAt(script, k);
    IsAnswer(box, turn, FinalMessage(model, turn.response), history[k].answer)
  }

  ghost predicate Follows(history: seq<Record>, model: Model, script: seq<Turn>, k: nat)
    requires k + 1 < |history|
  {
    GoesOn(history[k], model, TurnAt(script, k)) && history[k + 1].before == MomentAfter(history[k], model, TurnAt(script, k))
  }

  ghost predicate AreTurns(start: Moment, history: seq<Record>, box: ToolBatch.Toolbox, model: Model, script: seq<Turn>) {
    && (history != [] ==> history[0].before == start)
    && (forall k :: 0 <= k < |history| ==> IsTurn(history, box, model, script, k))
    && (forall k :: 0 <= k < |history| - 1 ==> Follows(history, model, script, k))
  }

  // Turn k leads on to another, which starts from here; or to none, and this is left.
  ghost predicate LeadsTo(history: seq<Record>, model: Model, script: seq<Turn>, k: nat, now: Moment)
    requires k < |history|
  {
    GoesOn(history[k], model, TurnAt(script, k)) && now == MomentAfter(history[k], model, TurnAt(script, k))
  }

  ghost predicate StopsWith(history: seq<Record>, model: Model, script: seq<Turn>, k: nat, end: Moment)
    requires k < |history|
  {
    !GoesOn(history[k], model, TurnAt(script, k)) && end == MomentAfter(history[k], model, TurnAt(script, k))
  }

  // The loop stands before another turn.
  ghost predicate StandsBefore(start: Moment, history: seq<Record>, model: Model, script: seq<Turn>, now: Moment) {
    && (history == [] ==> now == start)
    && (forall k: nat :: k + 1 == |history| ==> LeadsTo(history, model, script, k, now))
  }

  // The loop is done: the last of its turns leads to no other.
  ghost predicate IsHistory(start: Moment, history: seq<Record>, box: ToolBatch.Toolbox, model: Model, script: seq<Turn>, end: Moment) {
    && AreTurns(start, history, box, model, script) && history != []
    && (forall k: nat :: k + 1 == |history| ==> StopsWith(history, model, script, k, end))
  }

  ghost function AddedUpTo(history: seq<Record>, model: Model, script: seq<Turn>, n: nat): seq<AgentMessage>
    requires n <= |history|
  {
    if n == 0 then [] else AddedUpTo(history, model, script, n - 1) + Adds(history[n - 1], model, TurnAt(script, n - 1))
  }

  // All the messages the turns add.
  ghost function Added(history: seq<Record>, model: Model, script: seq<Turn>): seq<AgentMessage> {
    AddedUpTo(history, model, script, |history|)
  }

  lemma OneMoreTurn(start: Moment, history: seq<Record>, box: ToolBatch.Toolbox, model: Model, script: seq<Turn>, r: Record)
    requires AreTurns(start, history, box, model, script) && StandsBefore(start, history, model, script, r.before)
    requires var turn := TurnAt(script, |history|); IsAnswer(box, turn, FinalMessage(model, turn.response), r.answer)
    ensures AreTurns(start, history + [r], box, model, script)
  {
    var all := history + [r];
    assert history != [] ==> LeadsTo(history, model, script, |history| - 1, r.before);
    forall k | 0 <= k < |all|
      ensures IsTurn(all, box, model, script, k)
    {
      TurnsSame(history, r, box, model, script, k);
    }
    forall k | 0 <= k < |all| - 1
      ensures Follows(all, model, script, k)
    {
      FollowsSame(history, r, model, script, k);
    }
  }

  lemma TurnsSame(history: seq<Record>, r: Record, box: ToolBatch.Toolbox, model: Model, script: seq<Turn>, k: nat)
    requires k <= |history|
    requires k < |history| ==> IsTurn(history, box, model, script, k)
    requires var turn := TurnAt(script, |history|); IsAnswer(box, turn, FinalMessage(model, turn.response), r.answer)
    ensures IsTurn(history + [r], box, model, script, k)
  {
  }

  lemma FollowsSame(history: seq<Record>, r: Record, model: Model, script: seq<Turn>, k: nat)
    requires k < |history|
    requires if k < |history| - 1 then Follows(history, model, script, k)
             else LeadsTo(history, model, script, k, r.before)
    ensures Follows(history + [r], model, script, k)
  {
  }

  lemma OneMoreAdds(history: seq<Record>, r: Record, model: Model, script: seq<Turn>)
    ensures Added(history + [r], model, script) == Added(history, model, script) + Adds(r, model, TurnAt(script, |history|))
  {
    AddedSame(history, r, model, script, |history|);
  }

  lemma {:induction false} AddedSame(history: seq<Record>, r: Record, model: Model, script: seq<Turn>, n: nat)
    requires n <= |history|
    ensures AddedUpTo(history + [r], model, script, n) == AddedUpTo(history, model, script, n)
  {
    if n > 0 {
      AddedSame(history, r, model, script, n - 1);
    }
  }

  // A run takes another turn exactly when the last one left results to go back with, or
  // something was steered, or, if neither, some message was queued to follow up; it stops at
  // a reply that failed or a hook that says so, whatever is queued, and otherwise only with
  // the follow-up queue empty.
  lemma WhenItStops(start: Moment, history: seq<Record>, box: ToolBatch.Toolbox, model: Model, script: seq<Turn>, end: Moment)
    requires IsHistory(start, history, box, model, script, end)
    ensures forall k :: 0 <= k < |history| - 1 ==>
      && !Ends(model, TurnAt(script, k))
      && (history[k].answer.calls || history[k + 1].before.pending != [])
    ensures var n := |history| - 1;
      var turn := TurnAt(script, n);
      Ends(model, turn) ||
      (!history[n].answer.calls && end.pending == []
        && OpsOn(history[n].before.queues, turn.beforeSteering).steering.messages == []
        && end.queues.followUp.messages == [])
  {
    assert StopsWith(history, model, script, |history| - 1, end);
    forall k | 0 <= k < |history| - 1
      ensures !Ends(model, TurnAt(script, k)) && (history[k].answer.calls || history[k + 1].before.pending != [])
    {
      assert Follows(history, model, script, k);
    }
  }

  // So the queues, the provider and the tools determine a run: how many turns it has, what
  // each makes of its calls, which messages it adds and what it leaves.
  lemma RunDetermined(start: Moment, a: seq<Record>, b: seq<Record>, box: ToolBatch.Toolbox, model: Model, script: seq<Turn>, endA: Moment, endB: Moment)
    requires IsHistory(start, a, box, model, script, endA) && IsHistory(start, b, box, model, script, endB)
    ensures a == b && endA == endB
  {
    NotLonger(start, a, b, box, model, script, endA, endB);
    NotLonger(start, b, a, box, model, script, endB, endA);
    SameTurns(start, a, b, box, model, script, |a|);
    assert StopsWith(a, model, script, |a| - 1, endA) && StopsWith(b, model, script, |b| - 1, endB);
  }

  lemma NotLonger(start: Moment, a: seq<Record>, b: seq<Record>, box: ToolBatch.Toolbox, model: Model, script: seq<Turn>, endA: Moment, endB: Moment)
    requires IsHistory(start, a, box, model, script, endA) && IsHistory(start, b, box, model, script, endB)
    ensures |b| <= |a|
  {
    var n := |a| - 1;
    assert StopsWith(a, model, script, n, endA) && (n + 1 < |b| ==> Follows(b, model, script, n));
    SameTurns(start, a, b, box, model, script, if |a| <= |b| then |a| else |b|);
  }

  lemma {:induction false} SameTurns(start: Moment, a: seq<Record>, b: seq<Record>, box: ToolBatch.Toolbox, model: Model, script: seq<Turn>, n: nat)
    requires AreTurns(start, a, box, model, script) && AreTurns(start, b, box, model, script) && n <= |a| && n <= |b|
    ensures forall k :: 0 <= k < n ==> a[k] == b[k]
  {
    if n > 0 {
      SameTurns(start, a, b, box, model, script, n - 1);
      if n > 1 {
        assert Follows(a, model, script, n - 2) && Follows(b, model, script, n - 2);
      }
      assert IsTurn(a, box, model, script, n - 1) && IsTurn(b, box, model, script, n - 1);
      var turn := TurnAt(script, n - 1);
      AnswerUnique(box, turn, FinalMessage(model, turn.response), a[n - 1].answer, b[n - 1].answer);
    }
  }
}
