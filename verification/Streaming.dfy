// Reading one reply off the provider's stream (agent_loop.rs `stream_assistant_response`).
module Streaming {
  import opened Messages
  import opened AgentEvents
  import opened AgentState

  // Every kind of delta carries the partial reply so far; Done and Failure end the stream.
  datatype StreamEvent =
    | Start(partial: AssistantMessage)
    | Delta(partial: AssistantMessage)
    | Done(result: AssistantMessage)
    | Failure(result: AssistantMessage)

  datatype Response = Refused(error: string) | Streamed(events: seq<StreamEvent>)

  datatype Model = Model(provider: string, id: string)

  function Synthesized(model: Model, error: string): AssistantMessage {
    AssistantMessage([Text("")], model.provider, model.id, Error, Some(error))
  }

  predicate IsTerminal(e: StreamEvent) { e.Done? || e.Failure? }

  // Where the first terminal event is, or the length.
  function End(events: seq<StreamEvent>): (n: nat)
    ensures n <= |events|
    ensures forall i :: 0 <= i < n ==> !IsTerminal(events[i])
    ensures n < |events| ==> IsTerminal(events[n])
  {
    if events == [] || IsTerminal(events[0]) then 0 else 1 + End(events[1..])
  }

  // The partial replies the context holds after n events: a start adds one, a delta
  // overwrites the last.
  function Hold(held: seq<AssistantMessage>, e: StreamEvent): seq<AssistantMessage> {
    if e.Start? then held + [e.partial]
    else if e.Delta? && held != [] then held[|held| - 1 := e.partial]
    else held
  }

  function Held(events: seq<StreamEvent>, n: nat): seq<AssistantMessage>
    requires n <= |events|
  {
    if n == 0 then [] else Hold(Held(events, n - 1), events[n - 1])
  }

  function FinalMessage(model: Model, response: Response): AssistantMessage {
    match response
    case Refused(error) => Synthesized(model, error)
    case Streamed(events) =>
      var n := End(events);
      if n < |events| then events[n].result else Synthesized(model, "stream ended without terminal event")
  }

  // The final reply overwrites the last partial one. A further start leaves the one before
  // it behind.
  function Stale(response: Response): seq<AssistantMessage> {
    if response.Refused? then []
    else
      var held := Held(response.events, End(response.events));
      if held == [] then [] else held[..|held| - 1]
  }

  ghost predicate IsReplyAt(events: seq<StreamEvent>, i: nat, reply: AssistantMessage) {
    && i < |events| && (events[i].Done? || events[i].Failure?) && reply == events[i].result
    && forall j :: 0 <= j < i ==> events[j].Start? || events[j].Delta?
  }

  // A reply is what the stream's first terminal event says; a request that is refused, or a
  // stream that ends without one, is a failure that names the model and the reason.
  lemma ReplyIs(model: Model, response: Response)
    ensures var reply := FinalMessage(model, response);
      if response.Streamed? && exists i :: 0 <= i < |response.events| && IsTerminal(response.events[i])
      then exists i: nat :: IsReplyAt(response.events, i, reply)
      else
        && reply.stopReason == Error && reply.provider == model.provider && reply.model == model.id && Calls(reply.content) == []
        && reply.errorMessage == Some(if response.Refused? then response.error else "stream ended without terminal event")
  {
    if response.Streamed? && End(response.events) < |response.events| {
      assert IsReplyAt(response.events, End(response.events), FinalMessage(model, response));
    } else {
      FirstCall(Text(""), [], [Text("")]);
    }
  }

  function Starts(events: seq<StreamEvent>, n: nat): nat
    requires n <= |events|
  {
    if n == 0 then 0 else Starts(events, n - 1) + if events[n - 1].Start? then 1 else 0
  }

  lemma {:induction false} HeldCountsStarts(events: seq<StreamEvent>, n: nat)
    requires n <= |events|
    ensures |Held(events, n)| == Starts(events, n)
  {
    if n > 0 {
      HeldCountsStarts(events, n - 1);
    }
  }

  lemma StaleIff(response: Response)
    ensures Stale(response) == [] <==>
      response.Refused? || Starts(response.events, End(response.events)) <= 1
  {
    if response.Streamed? {
      HeldCountsStarts(response.events, End(response.events));
    }
  }

  // A turn between two messages.
  ghost predicate AtRest(m: Monitor) {
    m.pending == {} && (m.phase.Broken? || (m.phase.InTurn? && m.phase.open.None?))
  }

  ghost predicate Streams(from: Monitor, m: Monitor, starts: nat) {
    && m.pending == from.pending && m.ended == from.ended && m.replies == from.replies
    && if from.phase.Broken? || starts > 1 then m.phase.Broken?
       else if starts == 0 then m.phase == from.phase
       else from.phase.InTurn? && m.phase.InTurn?
            && m.phase.open.Some? && m.phase.open.value.Standard? && m.phase.open.value.message.Assistant?
  }

  lemma StreamOpens(from: Monitor, m: Monitor, starts: nat, a: AssistantMessage)
    requires AtRest(from) && Streams(from, m, starts)
    ensures Streams(from, Next(m, MessageStart(AssistantMsg(a))), starts + 1)
  {
  }

  lemma StreamGrows(from: Monitor, m: Monitor, starts: nat, a: AssistantMessage)
    requires AtRest(from) && Streams(from, m, starts) && starts > 0
    ensures Streams(from, Next(m, MessageUpdate(a)), starts)
  {
  }

  // The monitor once a reply has ended: it is the turn's, unless the stream started twice.
  ghost function AfterReply(from: Monitor, stale: nat, a: AssistantMessage): Monitor
    requires AtRest(from)
  {
    Monitor(if from.phase.Broken? || stale > 0 then Broken else InTurn(None, Some(a), []),
      {}, from.ended + [AssistantMsg(a)], from.replies)
  }

  lemma StreamCloses(from: Monitor, m: Monitor, starts: nat, a: AssistantMessage)
    requires AtRest(from) && Streams(from, m, starts) && starts > 0
    ensures Next(m, MessageEnd(AssistantMsg(a))) == AfterReply(from, starts - 1, a)
  {
  }

  function Lift(ms: seq<AssistantMessage>): (out: seq<AgentMessage>) {
    seq(|ms|, i requires 0 <= i < |ms| => AssistantMsg(ms[i]))
  }

  // Writes the reply into the context as it grows.
  method StreamAssistantResponse(agent: Agent, model: Model, before: seq<AgentMessage>, response: Response)
    returns (context: seq<AgentMessage>, final: AssistantMessage)
    requires agent.InRun() && AtRest(agent.now)
    modifies agent
    ensures agent.InRun() && agent.base == old(agent.base)
    ensures agent.now == AfterReply(old(agent.now), |Stale(response)|, final)
    ensures final == FinalMessage(model, response)
    ensures context == before + Lift(Stale(response)) + [AssistantMsg(final)]
  {
    context := before;
    var added := false;
    ghost var held: seq<AssistantMessage> := [];
    final := Synthesized(model, "stream ended without terminal event");
    match response {
      case Refused(error) => final := Synthesized(model, error);
      case Streamed(events) =>
        var i := 0;
        while i < |events| && !IsTerminal(events[i])
          invariant i <= End(events) && held == Held(events, i)
          invariant agent.InRun() && agent.base == old(agent.base)
          invariant Streams(old(agent.now), agent.now, |held|)
          invariant added <==> held != []
          invariant context == before + Lift(held)
        {
          context, added := StreamOne(agent, context, added, events[i], old(agent.now), before, held);
          held := Hold(held, events[i]);
          i := i + 1;
        }
        assert i == End(events);
        if i < |events| {
          final := events[i].result;
        }
    }
    context := FinishReply(agent, context, added, final, old(agent.now), before, held);
  }

  method StreamOne(agent: Agent, now: seq<AgentMessage>, addedBefore: bool, e: StreamEvent,
    ghost from: Monitor, ghost before: seq<AgentMessage>, ghost held: seq<AssistantMessage>)
    returns (context: seq<AgentMessage>, added: bool)
    requires agent.InRun() && !IsTerminal(e)
    requires AtRest(from) && Streams(from, agent.now, |held|)
    requires (addedBefore <==> held != []) && now == before + Lift(held)
    modifies agent
    ensures agent.InRun() && agent.base == old(agent.base)
    ensures Streams(from, agent.now, |Hold(held, e)|)
    ensures (added <==> Hold(held, e) != []) && context == before + Lift(Hold(held, e))
  {
    context, added := now, addedBefore;
    if e.Start? {
      StreamOpens(from, agent.now, |held|, e.partial);
      added := true;
      context := context + [AssistantMsg(e.partial)];
      agent.Emit(MessageStart(AssistantMsg(e.partial)));
    } else if added {
      StreamGrows(from, agent.now, |held|, e.partial);
      context := context[|context| - 1 := AssistantMsg(e.partial)];
      agent.Emit(MessageUpdate(e.partial));
    }
  }

  // A terminal event, or the end of the stream without one.
  method FinishReply(agent: Agent, now: seq<AgentMessage>, added: bool, final: AssistantMessage,
    ghost from: Monitor, ghost before: seq<AgentMessage>, ghost held: seq<AssistantMessage>)
    returns (context: seq<AgentMessage>)
    requires agent.InRun()
    requires AtRest(from) && Streams(from, agent.now, |held|)
    requires (added <==> held != []) && now == before + Lift(held)
    modifies agent
    ensures agent.InRun() && agent.base == old(agent.base)
    ensures agent.now == AfterReply(from, if held == [] then 0 else |held| - 1, final)
    ensures context == before + Lift(if held == [] then [] else held[..|held| - 1]) + [AssistantMsg(final)]
  {
    var last := AssistantMsg(final);
    if added {
      context := now[|now| - 1 := last];
      StreamCloses(from, agent.now, |held|, final);
    } else {
      context := now + [last];
      StreamOpens(from, agent.now, 0, final);
      agent.Emit(MessageStart(last));
      StreamCloses(from, agent.now, 1, final);
    }
    agent.Emit(MessageEnd(last));
  }
}
