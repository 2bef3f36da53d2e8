// Whole runs (grain-agent-core/src/agent.rs `prompt` and `continue_`), from the guard that
// starts one to the transcript it leaves.
module AgentRuns {
  import opened Messages
  import opened AgentEvents
  import opened MessageQueues
  import opened AgentState
  import opened Streaming
  import opened Turns
  import opened AgentLoop
  import opened SessionMirror
  import ToolBatch

  datatype RunError = AlreadyRunning | NoMessagesToContinue | CannotContinueFromAssistant

  predicate EndsInAssistant(ms: seq<AgentMessage>) { ms != [] && Role(ms[|ms| - 1]) == "assistant" }

  lemma EndsInAssistantIff(ms: seq<AgentMessage>)
    ensures ms == [] ==> !EndsInAssistant(ms)
    ensures ms != [] ==> var m := ms[|ms| - 1];
      EndsInAssistant(ms) <==> (m.Standard? && m.message.Assistant?) || (m.Custom? && m.payload.Other? && m.payload.role == "assistant")
  {
    if ms != [] {
      RolesAre(ms[|ms| - 1]);
    }
  }

  method StartRun(agent: Agent)
    requires agent.InRun() && agent.now == Initial
    modifies agent
    ensures agent.InRun() && agent.base == old(agent.base)
    ensures agent.now == Monitor(InTurn(None, None, []), {}, [], [])
  {
    agent.Emit(AgentStart);
    agent.Emit(TurnStart);
  }

  method EmitPrompts(agent: Agent, prompts: seq<AgentMessage>)
    requires agent.InRun() && AtRest(agent.now) && agent.now.phase.InTurn? && agent.now.ended == []
    modifies agent
    ensures agent.InRun() && agent.base == old(agent.base)
    ensures AtRest(agent.now) && agent.now.phase.InTurn? && agent.now.ended == prompts && agent.now.replies == old(agent.now.replies)
  {
    for i := 0 to |prompts|
      invariant agent.InRun() && agent.base == old(agent.base)
      invariant AtRest(agent.now) && agent.now.phase.InTurn? && agent.now.ended == prompts[..i]
      invariant agent.now.replies == old(agent.now.replies)
    {
      EmitMessage(agent, prompts[i]);
      assert prompts[..i + 1] == prompts[..i] + [prompts[i]];
    }
    assert prompts[..|prompts|] == prompts;
  }

  // What a run leaves behind, whichever way it ended: its trace follows the grammar and its
  // context is the transcript with the new messages, unless some stream started twice; and
  // every message a queue delivered since d0 is among the new messages, in order.
  ghost predicate RanFrom(agent: Agent, before: seq<AgentMessage>, st: LoopState, book: Book, d0: Deliveries)
    reads agent, agent.steering, agent.followUp
  {
    && st.newMessages == After(Initial, agent.trace).ended
    && agent.trace != [] && agent.trace[|agent.trace| - 1] == AgentEnd(st.newMessages)
    && (Accepted(agent.trace) <==> book.stale == 0)
    && agent.messages == st.context
    && (!book.replaced ==> |agent.messages| == |before| + |st.newMessages| + book.stale)
    && (!book.replaced && book.stale == 0 ==> agent.messages == before + st.newMessages)
    && |book.origins| == |st.newMessages|
    && DeliveredBy(agent).steering == d0.steering + From(st.newMessages, book.origins, Steered)
    && DeliveredBy(agent).followUp == d0.followUp + From(st.newMessages, book.origins, FollowedUp)
  }

  // What the loop was left with is what the run leaves.
  lemma FinishedRan(agent: Agent, st: LoopState, book: Book, d0: Deliveries)
    requires Sync(agent, st, book, d0) && st.pending == [] && Finished(agent, st)
    ensures After(Initial, agent.trace) == agent.now && st.newMessages == agent.now.ended
    ensures Accepted(agent.trace) <==> book.stale == 0
  {
    ReachesIff(Initial, agent.trace, agent.now);
  }

  lemma PromptsAccounted(prompts: seq<AgentMessage>, context: seq<AgentMessage>, d: Deliveries)
    ensures Accounted(LoopState(context, prompts, []), Book(Only(Prompted, |prompts|), Prompted, 0, false), d, d)
  {
    SelectOthers([], [], prompts, Prompted, Steered);
    SelectOthers([], [], prompts, Prompted, FollowedUp);
    assert [] + prompts == prompts && [] + Only(Prompted, |prompts|) == Only(Prompted, |prompts|);
  }

  // Which turns a run took, from where it started to what it leaves: its messages are the
  // prompts and what the turns added, and the events end these turns.
  ghost predicate TookTurns(agent: Agent, model: Model, box: ToolBatch.Toolbox, prompts: seq<AgentMessage>, start: Moment,
    st: LoopState, script: seq<Turn>, book: Book, history: seq<Record>)
    reads agent, agent.steering, agent.followUp
  {
    && IsHistory(start, history, box, model, script, Moment(agent.QueuesNow(), [], agent.messages))
    && st.newMessages == prompts + Added(history, model, script)
    && Tallied(book, After(Initial, agent.trace).replies, model, script, |history|)
  }

  // Runs the loop over an agent whose run has begun, with these prompts; none when the
  // transcript is continued.
  method RunAgentLoop(agent: Agent, model: Model, box: ToolBatch.Toolbox, prompts: seq<AgentMessage>, script: seq<Turn>, skipInitialPoll: bool,
    opening: seq<QueueOp>)
    returns (st: LoopState, ghost book: Book, ghost history: seq<Record>, ghost d0: Deliveries)
    requires agent.InRun() && agent.now == Initial && agent.base == agent.messages
    modifies agent, agent.steering, agent.followUp
    ensures d0 == old(DeliveredBy(agent)) && agent.base == old(agent.base)
    ensures Sync(agent, st, book, d0) && st.pending == [] && Finished(agent, st)
    ensures IsHistory(StartOf(old(agent.QueuesNow()), opening, skipInitialPoll, old(agent.messages) + prompts), history, box, model, script,
      MomentOf(agent, st))
    ensures st.newMessages == prompts + Added(history, model, script)
    ensures Tallied(book, agent.now.replies, model, script, |history|)
  {
    d0 := DeliveredBy(agent);
    st := LoopState(agent.messages + prompts, prompts, []);
    book := Book(Only(Prompted, |prompts|), Prompted, 0, false);
    StartRun(agent);
    EmitPrompts(agent, prompts);
    PromptsAccounted(prompts, st.context, d0);
    st, book, history := RunLoop(agent, model, box, st, script, skipInitialPoll, opening, book, d0);
  }

  // The loop's context becomes the transcript.
  method RunToEnd(agent: Agent, model: Model, box: ToolBatch.Toolbox, prompts: seq<AgentMessage>, script: seq<Turn>, skipInitialPoll: bool,
    opening: seq<QueueOp>)
    returns (st: LoopState, ghost book: Book, ghost history: seq<Record>, ghost d0: Deliveries)
    requires agent.InRun() && agent.now == Initial && agent.base == agent.messages
    modifies agent, agent.steering, agent.followUp
    ensures d0 == old(DeliveredBy(agent)) && agent.Idle() && RanFrom(agent, old(agent.messages), st, book, d0)
    ensures TookTurns(agent, model, box, prompts, StartOf(old(agent.QueuesNow()), opening, skipInitialPoll, old(agent.messages) + prompts),
      st, script, book, history)
  {
    st, book, history, d0 := RunAgentLoop(agent, model, box, prompts, script, skipInitialPoll, opening);
    FinishedRan(agent, st, book, d0);
    agent.FinishRun(Some(st.context));
  }

  method RunPromptMessages(agent: Agent, model: Model, box: ToolBatch.Toolbox, prompts: seq<AgentMessage>, script: seq<Turn>, skipInitialPoll: bool,
    opening: seq<QueueOp>)
    returns (ok: bool, st: LoopState, ghost book: Book, ghost history: seq<Record>, ghost d0: Deliveries)
    requires agent.Valid() && (!agent.activeRun ==> agent.pendingToolCalls == {})
    modifies agent, agent.steering, agent.followUp
    ensures ok <==> !old(agent.activeRun)
    ensures agent.Valid() && d0 == old(DeliveredBy(agent))
    ensures ok ==> agent.Idle() && RanFrom(agent, old(agent.messages), st, book, d0)
    ensures ok ==> TookTurns(agent, model, box, prompts, StartOf(old(agent.QueuesNow()), opening, skipInitialPoll,
      old(agent.messages) + prompts), st, script, book, history)
    ensures !ok ==> agent.activeRun && agent.messages == old(agent.messages) && DeliveredBy(agent) == d0
  {
    d0 := DeliveredBy(agent);
    st, book, history := LoopState([], [], []), Book([], Prompted, 0, false), [];
    ok := agent.BeginRun();
    if ok {
      st, book, history, d0 := RunToEnd(agent, model, box, prompts, script, skipInitialPoll, opening);
    }
  }

  // The events a run emits when the loop refuses to start: no grammar of turns, but the
  // failure is ended, reported and recorded like any message.
  method EmitFailure(agent: Agent, model: Model, error: string, aborted: bool) returns (failure: AssistantMessage)
    requires agent.InRun() && agent.now == Initial && agent.trace == []
    modifies agent
    ensures agent.InRun() && agent.base == old(agent.base)
    ensures failure == Synthesized(model, error).(stopReason := if aborted then Aborted else Error)
    ensures agent.now.ended == [AssistantMsg(failure)]
    ensures agent.trace == [MessageStart(AssistantMsg(failure)), MessageEnd(AssistantMsg(failure)),
      TurnEnd(failure, []), AgentEnd([AssistantMsg(failure)])]
  {
    failure := Synthesized(model, error).(stopReason := if aborted then Aborted else Error);
    var m := AssistantMsg(failure);
    OnlyOneEnds(MessageStart(m), m, TurnEnd(failure, []), AgentEnd([m]));
    agent.EmitAll([MessageStart(m), MessageEnd(m), TurnEnd(failure, []), AgentEnd([m])]);
  }

  lemma OnlyOneEnds(a: AgentEvent, m: AgentMessage, b: AgentEvent, c: AgentEvent)
    requires !a.MessageEnd? && !b.MessageEnd? && !c.MessageEnd?
    ensures After(Initial, [a, MessageEnd(m), b, c]).ended == [m]
  {
    var events := [a, MessageEnd(m), b, c];
    MonitorCollects(Initial, events, 4);
    assert EndedUpTo(events, 1) == [];
    assert EndedUpTo(events, 2) == [m];
    assert EndedUpTo(events, 3) == [m];
  }

  // What a refused loop leaves behind: one synthetic failure, ended and recorded.
  ghost predicate FailedAlone(agent: Agent, before: seq<AgentMessage>, st: LoopState, d0: Deliveries)
    reads agent, agent.steering, agent.followUp
  {
    && |st.newMessages| == 1
    && st.newMessages[0].Standard? && st.newMessages[0].message.Assistant? && Failed(st.newMessages[0].message.assistant)
    && agent.messages == before + st.newMessages
    && After(Initial, agent.trace).ended == st.newMessages
    && agent.trace != [] && agent.trace[|agent.trace| - 1] == AgentEnd(st.newMessages)
    && DeliveredBy(agent) == d0
  }

  // The loop goes on from a transcript, unless it is empty or ends in a reply.
  predicate LoopRefuses(ms: seq<AgentMessage>) { ms == [] || EndsInAssistant(ms) }

  method RefuseLoop(agent: Agent, model: Model, aborted: bool) returns (st: LoopState)
    requires agent.InRun() && agent.now == Initial && agent.trace == [] && agent.base == agent.messages
    modifies agent
    ensures agent.Idle() && FailedAlone(agent, old(agent.messages), st, old(DeliveredBy(agent)))
  {
    var failure := EmitFailure(agent, model,
      if agent.messages == [] then "Cannot continue: no messages in context" else "Cannot continue from message role: assistant", aborted);
    st := LoopState([], [AssistantMsg(failure)], []);
    ReachesIff(Initial, agent.trace, agent.now);
    agent.FinishRun(None);
  }

  method RunContinuation(agent: Agent, model: Model, box: ToolBatch.Toolbox, script: seq<Turn>, opening: seq<QueueOp>, aborted: bool)
    returns (ok: bool, st: LoopState, ghost book: Book, ghost history: seq<Record>, ghost d0: Deliveries)
    requires agent.Valid() && (!agent.activeRun ==> agent.pendingToolCalls == {})
    modifies agent, agent.steering, agent.followUp
    ensures ok <==> !old(agent.activeRun)
    ensures agent.Valid() && d0 == old(DeliveredBy(agent))
    ensures ok ==> agent.Idle()
    ensures ok && old(agent.messages) != [] && !EndsInAssistant(old(agent.messages)) ==>
      && RanFrom(agent, old(agent.messages), st, book, d0)
      && TookTurns(agent, model, box, [], StartOf(old(agent.QueuesNow()), opening, false, old(agent.messages)),
        st, script, book, history)
    ensures ok && (old(agent.messages) == [] || EndsInAssistant(old(agent.messages))) ==> FailedAlone(agent, old(agent.messages), st, d0)
    ensures !ok ==> agent.activeRun && agent.messages == old(agent.messages) && DeliveredBy(agent) == d0
  {
    d0 := DeliveredBy(agent);
    st, book, history := LoopState([], [], []), Book([], Prompted, 0, false), [];
    ok := agent.BeginRun();
    if ok {
      if LoopRefuses(agent.messages) {
        st := RefuseLoop(agent, model, aborted);
      } else {
        st, book, history, d0 := RunToEnd(agent, model, box, [], script, false, opening);
      }
    }
  }

  // Which way `continue_` goes; it drains a queue while it holds the lock.
  datatype Action = FromSteering(prompts: seq<AgentMessage>) | FromFollowUp(prompts: seq<AgentMessage>) | FromTranscript | Refuse(error: RunError)

  method Decide(agent: Agent) returns (action: Action)
    requires agent.Valid()
    modifies agent.steering, agent.followUp
    ensures agent.Valid()
    ensures action == Refuse(AlreadyRunning) <==> agent.activeRun
    ensures action == Refuse(NoMessagesToContinue) <==> !agent.activeRun && agent.messages == []
    ensures action.FromTranscript? <==> !agent.activeRun && agent.messages != [] && !EndsInAssistant(agent.messages)
    ensures action.FromSteering? <==> !agent.activeRun && EndsInAssistant(agent.messages) && old(agent.steering.messages) != []
    ensures action.FromFollowUp? <==>
      !agent.activeRun && EndsInAssistant(agent.messages) && old(agent.steering.messages) == [] && old(agent.followUp.messages) != []
    ensures DeliveredBy(agent).steering == old(DeliveredBy(agent)).steering + if action.FromSteering? then action.prompts else []
    ensures DeliveredBy(agent).followUp == old(DeliveredBy(agent)).followUp + if action.FromFollowUp? then action.prompts else []
    ensures action.FromSteering? || action.FromFollowUp? ==> action.prompts != []
  {
    if agent.activeRun {
      return Refuse(AlreadyRunning);
    }
    if agent.messages == [] {
      return Refuse(NoMessagesToContinue);
    }
    if !EndsInAssistant(agent.messages) {
      return FromTranscript;
    }
    var queued := agent.steering.Drain();
    if queued != [] {
      return FromSteering(queued);
    }
    queued := agent.followUp.Drain();
    return if queued != [] then FromFollowUp(queued) else Refuse(CannotContinueFromAssistant);
  }

  // --- Between the two locked sections of `continue_` ---

  // What else may happen to the agent there: setters, whole runs, and runs that begin and
  // are still in flight or finish with any context.
  datatype Interference =
    | Setters(ops: seq<QueueOp>)
    | SetMessages(messages: seq<AgentMessage>)
    | Reset
    | Drains(origin: Origin)
    | Begins(events: seq<AgentEvent>)
    | Finishes(context: Option<seq<AgentMessage>>)
    | Prompts(prompts: seq<AgentMessage>, script: seq<Turn>, opening: seq<QueueOp>)

  // Whether a run is in flight after n of them: one begins where none is active, and the last
  // to begin has not finished.
  function InFlight(gap: seq<Interference>, n: nat): bool
    requires n <= |gap|
  {
    n > 0 && (gap[n - 1].Begins? || (!gap[n - 1].Finishes? && InFlight(gap, n - 1)))
  }

  // Setters and drains alone leave the transcript as it is.
  predicate Quiet(gap: seq<Interference>, n: nat)
    requires n <= |gap|
  {
    forall i :: 0 <= i < n ==> gap[i].Setters? || gap[i].Drains?
  }

  ghost predicate DeliversMore(before: Deliveries, after: Deliveries) {
    before.steering <= after.steering && before.followUp <= after.followUp
  }

  method Interfere(agent: Agent, model: Model, box: ToolBatch.Toolbox, step: Interference) returns (events: seq<AgentEvent>)
    requires agent.Valid() && (!agent.activeRun ==> agent.pendingToolCalls == {})
    modifies agent, agent.steering, agent.followUp
    ensures agent.Valid() && (!agent.activeRun ==> agent.pendingToolCalls == {})
    ensures agent.activeRun <==> step.Begins? || (!step.Finishes? && old(agent.activeRun))
    ensures DeliversMore(old(DeliveredBy(agent)), DeliveredBy(agent))
    ensures step.Setters? || step.Drains? ==> agent.messages == old(agent.messages) && events == []
  {
    events := [];
    match step {
      case Setters(ops) => agent.Enact(ops);
      case SetMessages(ms) => agent.messages := ms;
      case Reset => agent.Reset();
      case Drains(origin) =>
        if origin.Steered? {
          var _ := agent.steering.Drain();
        } else {
          var _ := agent.followUp.Drain();
        }
      case Begins(emitted) =>
        var ok := agent.BeginRun();
        if ok {
          agent.EmitAll(emitted);
          events := emitted;
        }
      case Finishes(context) =>
        if agent.activeRun {
          agent.FinishRun(context);
        }
      case Prompts(prompts, script, opening) =>
        var ok, st;
        ghost var book, history, d0;
        ok, st, book, history, d0 := RunPromptMessages(agent, model, box, prompts, script, false, opening);
        if ok {
          events := agent.trace;
        }
    }
  }

  method InterfereAll(agent: Agent, model: Model, box: ToolBatch.Toolbox, gap: seq<Interference>) returns (events: seq<AgentEvent>)
    requires agent.Valid() && !agent.activeRun && agent.pendingToolCalls == {}
    modifies agent, agent.steering, agent.followUp
    ensures agent.Valid() && (!agent.activeRun ==> agent.pendingToolCalls == {})
    ensures agent.activeRun <==> InFlight(gap, |gap|)
    ensures DeliversMore(old(DeliveredBy(agent)), DeliveredBy(agent))
    ensures Quiet(gap, |gap|) ==> agent.messages == old(agent.messages) && events == []
  {
    events := [];
    for n := 0 to |gap|
      invariant agent.Valid() && (!agent.activeRun ==> agent.pendingToolCalls == {})
      invariant agent.activeRun <==> InFlight(gap, n)
      invariant DeliversMore(old(DeliveredBy(agent)), DeliveredBy(agent))
      invariant Quiet(gap, n) ==> agent.messages == old(agent.messages) && events == []
    {
      var emitted := Interfere(agent, model, box, gap[n]);
      events := events + emitted;
    }
  }

  // --- `continue_` ---

  // From the second locked section on: the run starts, or is refused and takes nothing.
  method Resume(agent: Agent, model: Model, box: ToolBatch.Toolbox, action: Action, script: seq<Turn>, opening: seq<QueueOp>, aborted: bool)
    returns (ok: bool, st: LoopState, ghost book: Book, ghost history: seq<Record>, ghost d0: Deliveries)
    requires agent.Valid() && (!agent.activeRun ==> agent.pendingToolCalls == {}) && !action.Refuse?
    modifies agent, agent.steering, agent.followUp
    ensures ok <==> !old(agent.activeRun)
    ensures agent.Valid() && d0 == old(DeliveredBy(agent))
    ensures ok ==> agent.Idle() && Resumed(agent, model, box, action, old(agent.messages), old(agent.QueuesNow()), opening, st, script, book, history, d0)
    ensures !ok ==> agent.messages == old(agent.messages) && DeliveredBy(agent) == d0
  {
    if action.FromTranscript? {
      ok, st, book, history, d0 := RunContinuation(agent, model, box, script, opening, aborted);
    } else {
      ok, st, book, history, d0 := RunPromptMessages(agent, model, box, action.prompts, script, action.FromSteering?, opening);
    }
  }

  // A run from steering does not poll the queue again that it was drained from.
  ghost predicate Resumed(agent: Agent, model: Model, box: ToolBatch.Toolbox, action: Action, before: seq<AgentMessage>, qs: Queues,
    opening: seq<QueueOp>, st: LoopState, script: seq<Turn>, book: Book, history: seq<Record>, d0: Deliveries)
    reads agent, agent.steering, agent.followUp
  {
    if action.FromTranscript? && LoopRefuses(before) then FailedAlone(agent, before, st, d0)
    else
      && RanFrom(agent, before, st, book, d0)
      && TookTurns(agent, model, box, Drained(action), StartOf(qs, opening, action.FromSteering?, before + Drained(action)),
        st, script, book, history)
  }

  function Drained(action: Action): (prompts: seq<AgentMessage>) {
    if action.FromSteering? || action.FromFollowUp? then action.prompts else []
  }

  // `continue_`, with anything happening between its two locked sections. `begun` and `d1`
  // are the transcript and the deliveries as the run starts. Drained messages head the run
  // that starts; they are lost, in no transcript and no queue, exactly when another run is
  // in flight by then. One that began and finished in between loses nothing.
  method Continue(agent: Agent, model: Model, box: ToolBatch.Toolbox, script: seq<Turn>, opening: seq<QueueOp>, aborted: bool, gap: seq<Interference>)
    returns (ok: bool, action: Action, st: LoopState, events: seq<AgentEvent>, lost: seq<AgentMessage>,
      ghost begun: seq<AgentMessage>, ghost qs: Queues, ghost book: Book, ghost history: seq<Record>, ghost d1: Deliveries)
    requires agent.Valid() && (!agent.activeRun ==> agent.pendingToolCalls == {})
    modifies agent, agent.steering, agent.followUp
    ensures ok <==> !action.Refuse? && !InFlight(gap, |gap|)
    ensures ok ==> agent.Idle() && Resumed(agent, model, box, action, begun, qs, opening, st, script, book, history, d1)
    ensures DeliversMore(Deliveries(old(DeliveredBy(agent)).steering + (if action.FromSteering? then action.prompts else []),
      old(DeliveredBy(agent)).followUp + (if action.FromFollowUp? then action.prompts else [])), d1)
    ensures !ok ==> agent.messages == begun && DeliveredBy(agent) == d1 && lost == Drained(action)
    ensures ok ==> lost == []
    ensures lost != [] <==>
      && InFlight(gap, |gap|) && !old(agent.activeRun) && EndsInAssistant(old(agent.messages))
      && (old(agent.steering.messages) != [] || old(agent.followUp.messages) != [])
    ensures Quiet(gap, |gap|) ==> begun == old(agent.messages) && events == [] && !(action.FromTranscript? && LoopRefuses(begun))
  {
    st, events, lost, ok := LoopState([], [], []), [], [], false;
    book, history := Book([], Prompted, 0, false), [];
    action := Decide(agent);
    begun, qs, d1 := agent.messages, agent.QueuesNow(), DeliveredBy(agent);
    if action.Refuse? {
      return;
    }
    events := InterfereAll(agent, model, box, gap);
    begun, qs := agent.messages, agent.QueuesNow();
    ok, st, book, history, d1 := Resume(agent, model, box, action, script, opening, aborted);
    if !ok {
      lost := Drained(action);
    }
  }

  // --- Three copies of one transcript ---

  // A run with its listener: the loop's context, which the agent takes over; the transcript
  // the agent rebuilt from the events; and the session. They start out equal, and the
  // session then always holds the new messages. Unless a hook replaced messages, the three
  // are equal at the end exactly when no stream of the run started twice, which is also
  // exactly when the trace follows the grammar.
  method PromptWithMirror(agent: Agent, mirror: Mirror, model: Model, box: ToolBatch.Toolbox, prompts: seq<AgentMessage>, script: seq<Turn>, opening: seq<QueueOp>)
    returns (st: LoopState, ghost book: Book, ghost history: seq<Record>, ghost d0: Deliveries)
    requires agent.Idle() && agent.messages == mirror.Transcript()
    modifies agent, agent.steering, agent.followUp, mirror
    ensures agent.Idle()
    ensures mirror.Transcript() == old(agent.messages) + st.newMessages
    ensures TookTurns(agent, model, box, prompts, StartOf(old(agent.QueuesNow()), opening, false, old(agent.messages) + prompts),
      st, script, book, history)
    ensures RanFrom(agent, old(agent.messages), st, book, d0) && d0 == old(DeliveredBy(agent))
    ensures After(Initial, agent.trace).replies == Replies(model, script, |history|)
    ensures Accepted(agent.trace) <==> StartsAtMostOnce(script, |history|)
    ensures !book.replaced ==> (agent.messages == mirror.Transcript() <==> StartsAtMostOnce(script, |history|))
    ensures KeepsMessages(script, |history|) ==> !book.replaced
  {
    var ok;
    ok, st, book, history, d0 := RunPromptMessages(agent, model, box, prompts, script, false, opening);
    MirrorEvents(mirror, agent.trace);
    AgreeIff(old(agent.messages), agent.messages, st.newMessages, After(Initial, agent.trace).replies, book, model, script, |history|);
  }

  // The same for `continue_`, whatever happens in between, its runs mirrored too. If agent
  // and session agree as the run starts, they agree at the end under the same condition, and
  // in any case after a refused loop, where both gain the one synthetic failure.
  method ContinueWithMirror(agent: Agent, mirror: Mirror, model: Model, box: ToolBatch.Toolbox, script: seq<Turn>, opening: seq<QueueOp>, aborted: bool, gap: seq<Interference>)
    returns (ok: bool, action: Action, st: LoopState,
      ghost begun: seq<AgentMessage>, ghost qs: Queues, ghost mirrored: seq<AgentMessage>, ghost book: Book, ghost history: seq<Record>, ghost d1: Deliveries)
    requires agent.Idle()
    modifies agent, agent.steering, agent.followUp, mirror
    ensures ok <==> !action.Refuse? && !InFlight(gap, |gap|)
    ensures ok ==> agent.Idle() && Resumed(agent, model, box, action, begun, qs, opening, st, script, book, history, d1)
    ensures mirror.Transcript() == mirrored + if ok then st.newMessages else []
    ensures Quiet(gap, |gap|) ==> begun == old(agent.messages) && mirrored == old(mirror.Transcript())
    ensures ok && begun == mirrored ==>
      if action.FromTranscript? && LoopRefuses(begun) then agent.messages == mirror.Transcript()
      else
        && After(Initial, agent.trace).replies == Replies(model, script, |history|)
        && (!book.replaced ==> (agent.messages == mirror.Transcript() <==> StartsAtMostOnce(script, |history|)))
        && (KeepsMessages(script, |history|) ==> !book.replaced)
        && (Accepted(agent.trace) <==> StartsAtMostOnce(script, |history|))
  {
    var events, lost;
    ok, action, st, events, lost, begun, qs, book, history, d1 := Continue(agent, model, box, script, opening, aborted, gap);
    MirrorEvents(mirror, events);
    mirrored := mirror.Transcript();
    if ok {
      MirrorEvents(mirror, agent.trace);
      if !(action.FromTranscript? && LoopRefuses(begun)) {
        AgreeIff(begun, agent.messages, st.newMessages, After(Initial, agent.trace).replies, book, model, script, |history|);
      }
    }
  }

  ghost predicate StartsAtMostOnce(script: seq<Turn>, n: nat) {
    forall i: nat :: i < n ==> Stale(TurnAt(script, i).response) == []
  }

  ghost predicate KeepsMessages(script: seq<Turn>, n: nat) {
    forall i: nat :: i < n ==> LeavesMessages(TurnAt(script, i).hook)
  }

  lemma AgreeIff(before: seq<AgentMessage>, context: seq<AgentMessage>, newMessages: seq<AgentMessage>, replies: seq<AssistantMessage>, book: Book,
    model: Model, script: seq<Turn>, used: nat)
    requires Tallied(book, replies, model, script, used)
    requires !book.replaced ==> |context| == |before| + |newMessages| + book.stale
    requires !book.replaced && book.stale == 0 ==> context == before + newMessages
    ensures used > 0 && replies == Replies(model, script, used)
    ensures book.stale == 0 <==> StartsAtMostOnce(script, used)
    ensures !book.replaced ==> (context == before + newMessages <==> StartsAtMostOnce(script, used))
    ensures KeepsMessages(script, used) ==> !book.replaced
  {
    TallyIff(model, script, used);
    TallyReplies(model, script, used);
    if KeepsMessages(script, used) {
      NotReplaced(model, script, used);
    }
  }

  lemma {:induction false} NotReplaced(model: Model, script: seq<Turn>, n: nat)
    requires KeepsMessages(script, n)
    ensures !TallyOf(model, script, n).replaced
  {
    if n > 0 {
      NotReplaced(model, script, n - 1);
    }
  }
}
