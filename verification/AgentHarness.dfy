// The harness around the agent (grain-agent-harness/src/agent_harness.rs): the gate it sets
// before it asks the agent for a run, and its listener, which clears it.
module AgentHarness {
  import opened Messages
  import opened AgentEvents
  import opened MessageQueues
  import opened AgentState
  import opened Streaming
  import opened Turns
  import opened AgentLoop
  import opened AgentRuns
  import SessionWrites
  import ToolBatch

  class Harness {
    const agent: Agent
    const settings: SessionWrites.Harness

    constructor (messages: seq<AgentMessage>)
      ensures Ready() && agent.Idle() && agent.messages == messages && fresh(Repr())
      ensures !settings.running && settings.pending == [] && settings.session == []
    {
      agent := new Agent(messages);
      settings := new SessionWrites.Harness();
    }

    ghost function Repr(): set<object> {
      {settings} + agent.Repr()
    }

    ghost predicate Ready()
      reads agent.Repr()
    {
      agent.Valid() && (!agent.activeRun ==> agent.pendingToolCalls == {})
    }

    // The listener: a turn's end flushes, a run's end clears the gate first.
    method OnEvent(e: AgentEvent, applies: nat -> bool)
      modifies settings
      ensures settings.running == (old(settings.running) && !e.AgentEnd?)
      ensures settings.session + settings.pending == old(settings.session) + old(settings.pending)
      ensures old(settings.session) <= settings.session
      ensures (e.TurnEnd? || e.AgentEnd?) && (forall w :: applies(w)) ==> settings.pending == []
    {
      if e.AgentEnd? {
        settings.running := false;
      }
      if e.TurnEnd? || e.AgentEnd? {
        settings.FlushPendingSessionWrites(applies);
      }
    }

    // A run's events end in its `AgentEnd`: the gate is cleared, and unless a write fails
    // everything queued has reached the session in order.
    method Listen(events: seq<AgentEvent>, applies: nat -> bool)
      requires events != [] && events[|events| - 1].AgentEnd?
      modifies settings
      ensures Cleared(old(settings.session), old(settings.pending), applies)
    {
      for i := 0 to |events|
        invariant settings.session + settings.pending == old(settings.session) + old(settings.pending)
        invariant old(settings.session) <= settings.session
        invariant i == |events| ==> !settings.running && ((forall w :: applies(w)) ==> settings.pending == [])
      {
        OnEvent(events[i], applies);
      }
    }

    ghost predicate Cleared(session: seq<nat>, pending: seq<nat>, applies: nat -> bool)
      reads settings
    {
      && !settings.running
      && settings.session + settings.pending == session + pending && session <= settings.session
      && ((forall w :: applies(w)) ==> settings.session == session + pending)
    }

    // Set, with nothing written and nothing dropped.
    ghost predicate Held(session: seq<nat>, pending: seq<nat>)
      reads settings
    {
      settings.running && settings.session == session && settings.pending == pending
    }

    // Refused only while another run is active, whose own end has yet to clear the gate, or
    // has just done so.
    method Prompt(model: Model, box: ToolBatch.Toolbox, prompts: seq<AgentMessage>, script: seq<Turn>, opening: seq<QueueOp>, applies: nat -> bool)
      returns (ok: bool, st: LoopState, ghost book: Book, ghost history: seq<Record>, ghost d0: Deliveries)
      requires Ready()
      modifies Repr()
      ensures Ready() && (ok <==> !old(agent.activeRun))
      ensures ok ==> agent.Idle() && RanFrom(agent, old(agent.messages), st, book, d0)
      ensures ok ==> TookTurns(agent, model, box, prompts,
        StartOf(old(agent.QueuesNow()), opening, false, old(agent.messages) + prompts), st, script, book, history)
      ensures ok ==> Cleared(old(settings.session), old(settings.pending), applies)
      ensures !ok ==> agent.activeRun && agent.messages == old(agent.messages)
      ensures !ok ==> Held(old(settings.session), old(settings.pending))
    {
      settings.running := true;
      ok, st, book, history, d0 := RunPromptMessages(agent, model, box, prompts, script, false, opening);
      if ok {
        Listen(agent.trace, applies);
      }
    }

    // Refused, it leaves the gate set over an idle agent exactly when the transcript is empty,
    // or ends in a reply with both queues empty.
    method Continue(model: Model, box: ToolBatch.Toolbox, script: seq<Turn>, opening: seq<QueueOp>, aborted: bool, applies: nat -> bool)
      returns (error: Option<RunError>, st: LoopState, ghost book: Book, ghost history: seq<Record>, ghost d0: Deliveries)
      requires Ready()
      modifies Repr()
      ensures Ready()
      ensures error == None ==> agent.Idle() && Cleared(old(settings.session), old(settings.pending), applies)
      ensures error.Some? ==> agent.messages == old(agent.messages) && agent.activeRun == old(agent.activeRun)
      ensures error.Some? ==> Held(old(settings.session), old(settings.pending))
      ensures settings.running && !agent.activeRun <==>
        && !old(agent.activeRun)
        && (old(agent.messages) == [] ||
          (EndsInAssistant(old(agent.messages)) && old(agent.steering.messages) == [] && old(agent.followUp.messages) == []))
      ensures error == Some(AlreadyRunning) <==> old(agent.activeRun)
    {
      settings.running := true;
      st, book, history, error := LoopState([], [], []), Book([], Prompted, 0, false), [], None;
      d0 := DeliveredBy(agent);
      var action := Decide(agent);
      if action.Refuse? {
        error := Some(action.error);
      } else {
        var ok;
        ok, st, book, history, d0 := Resume(agent, model, box, action, script, opening, aborted);
        Listen(agent.trace, applies);
      }
    }

    // A run that has emitted its `AgentEnd` is still active until it is finished. The gate a
    // prompt sets in between outlasts the run, and no flush is to come.
    method PromptBetweenEndAndFinish(model: Model, box: ToolBatch.Toolbox, newMessages: seq<AgentMessage>, context: seq<AgentMessage>,
      prompts: seq<AgentMessage>, script: seq<Turn>, opening: seq<QueueOp>, applies: nat -> bool)
      returns (ok: bool)
      requires Ready() && agent.activeRun && agent.InRun()
      modifies Repr()
      ensures !ok && agent.Idle() && agent.messages == context
      ensures settings.running && settings.session + settings.pending == old(settings.session) + old(settings.pending)
    {
      agent.Emit(AgentEnd(newMessages));
      OnEvent(AgentEnd(newMessages), applies);
      var st;
      ghost var book, history, d0;
      ok, st, book, history, d0 := Prompt(model, box, prompts, script, opening, applies);
      agent.FinishRun(Some(context));
    }
  }
}
