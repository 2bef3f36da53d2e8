// The agent (grain-agent-core/src/agent.rs), which rebuilds its transcript from the events
// of a run.
module AgentState {
  import opened Messages
  import opened AgentEvents
  import opened MessageQueues

  datatype QueueOp =
    | Steer(message: AgentMessage)
    | FollowUp(message: AgentMessage)
    | ClearSteering
    | ClearFollowUp
    | SetSteeringMode(mode: QueueMode)
    | SetFollowUpMode(mode: QueueMode)

  datatype Queues = Queues(steering: Queue, followUp: Queue)

  // What one setter does to the queues.
  ghost function OpOn(qs: Queues, op: QueueOp): Queues {
    match op
    case Steer(m) => qs.(steering := qs.steering.(messages := qs.steering.messages + [m]))
    case FollowUp(m) => qs.(followUp := qs.followUp.(messages := qs.followUp.messages + [m]))
    case ClearSteering => qs.(steering := qs.steering.(messages := []))
    case ClearFollowUp => qs.(followUp := qs.followUp.(messages := []))
    case SetSteeringMode(mode) => qs.(steering := qs.steering.(mode := mode))
    case SetFollowUpMode(mode) => qs.(followUp := qs.followUp.(mode := mode))
  }

  // The first n setters, in order.
  ghost function OpsUpTo(qs: Queues, ops: seq<QueueOp>, n: nat): Queues
    requires n <= |ops|
  {
    if n == 0 then qs else OpOn(OpsUpTo(qs, ops, n - 1), ops[n - 1])
  }

  ghost function OpsOn(qs: Queues, ops: seq<QueueOp>): Queues {
    OpsUpTo(qs, ops, |ops|)
  }

  class Agent {
    var messages: seq<AgentMessage>
    var streamingMessage: Option<AgentMessage>
    var pendingToolCalls: set<string>
    var errorMessage: Option<string>
    var isStreaming: bool
    var activeRun: bool
    const steering: PendingMessageQueue
    const followUp: PendingMessageQueue

    // The events delivered to listeners in this run; as the monitor reads them; and the
    // transcript as the run began.
    var trace: seq<AgentEvent>
    ghost var now: Monitor
    ghost var base: seq<AgentMessage>

    ghost function Repr(): set<object> {
      {this, steering, followUp}
    }

    ghost predicate Valid()
      reads Repr()
    {
      steering != followUp && steering.Valid() && followUp.Valid()
    }

    ghost function QueuesNow(): Queues
      reads steering, followUp
    {
      Queues(steering.Now(), followUp.Now())
    }

    ghost predicate Idle()
      reads Repr()
    {
      Valid() && !activeRun && !isStreaming && pendingToolCalls == {}
    }

    // During a run, the transcript is where it began plus the messages ended so far.
    ghost predicate InRun()
      reads Repr()
    {
      && Valid()
      && Reaches(Initial, trace, now)
      && messages == base + now.ended
      && pendingToolCalls == now.pending
    }

    constructor (messages: seq<AgentMessage>)
      ensures Valid() && this.messages == messages
      ensures Idle()
      ensures fresh(steering) && fresh(followUp)
    {
      this.messages := messages;
      streamingMessage, pendingToolCalls, errorMessage, isStreaming, activeRun := None, {}, None, false, false;
      steering := new PendingMessageQueue(OneAtATime);
      followUp := new PendingMessageQueue(OneAtATime);
    }

    // Refused while another run is active.
    method BeginRun() returns (ok: bool)
      requires Valid() && (!activeRun ==> pendingToolCalls == {})
      modifies this
      ensures ok <==> !old(activeRun)
      ensures messages == old(messages) && pendingToolCalls == old(pendingToolCalls)
      ensures activeRun && (ok ==> InRun() && trace == [] && now == Initial && base == messages)
      ensures !ok ==> isStreaming == old(isStreaming)
    {
      if activeRun {
        return false;
      }
      activeRun, isStreaming, streamingMessage, errorMessage := true, true, None, None;
      trace, now, base := [], Initial, messages;
      ReachesIff(Initial, trace, now);
      return true;
    }

    // When the loop ended well its context becomes the transcript.
    method FinishRun(context: Option<seq<AgentMessage>>)
      requires Valid()
      modifies this
      ensures Idle() && streamingMessage == None
      ensures messages == if context.Some? then context.value else old(messages)
      ensures trace == old(trace) && now == old(now) && base == old(base)
    {
      if context.Some? {
        messages := context.value;
      }
      isStreaming, activeRun, streamingMessage, pendingToolCalls := false, false, None, {};
    }

    // Clears transcript, runtime state and queues; a run in flight stays active.
    method Reset()
      requires Valid()
      modifies this, steering, followUp
      ensures Valid() && activeRun == old(activeRun)
      ensures messages == [] && streamingMessage == None && pendingToolCalls == {} && errorMessage == None && !isStreaming
      ensures steering.messages == [] && followUp.messages == []
      ensures DeliveredOf(steering.fates) == old(DeliveredOf(steering.fates))
      ensures DeliveredOf(followUp.fates) == old(DeliveredOf(followUp.fates))
    {
      messages, isStreaming, streamingMessage, pendingToolCalls, errorMessage := [], false, None, {}, None;
      var _ := steering.TakeAll();
      var _ := followUp.TakeAll();
    }

    method ProcessEvent(e: AgentEvent)
      modifies this
      ensures messages == old(messages) + EndedBy(e)
      ensures pendingToolCalls == NextPending(old(pendingToolCalls), e)
      ensures streamingMessage ==
        if e.MessageStart? then Some(e.started)
        else if e.MessageUpdate? then Some(AssistantMsg(e.partial))
        else if e.MessageEnd? || e.AgentEnd? then None
        else old(streamingMessage)
      ensures errorMessage ==
        if e.TurnEnd? && e.message.errorMessage.Some? then e.message.errorMessage else old(errorMessage)
      ensures isStreaming == old(isStreaming) && activeRun == old(activeRun)
      ensures trace == old(trace) && now == old(now) && base == old(base)
    {
      match e {
        case MessageStart(m) => streamingMessage := Some(m);
        case MessageUpdate(a) => streamingMessage := Some(AssistantMsg(a));
        case MessageEnd(m) =>
          streamingMessage := None;
          messages := messages + [m];
        case ToolExecutionStart(id) => pendingToolCalls := pendingToolCalls + {id};
        case ToolExecutionEnd(id, _) => pendingToolCalls := pendingToolCalls - {id};
        case TurnEnd(a, _) =>
          if a.errorMessage.Some? {
            errorMessage := a.errorMessage;
          }
        case AgentEnd(_) => streamingMessage := None;
        case _ =>
      }
    }

    // The event sink.
    method Emit(e: AgentEvent)
      requires InRun()
      modifies this
      ensures InRun() && trace == old(trace) + [e] && now == Next(old(now), e)
      ensures base == old(base) && isStreaming == old(isStreaming) && activeRun == old(activeRun)
    {
      ProcessEvent(e);
      ReachesIff(Initial, trace, now);
      AfterOne(Initial, trace, e);
      ReachesIff(Initial, trace + [e], Next(now, e));
      trace, now := trace + [e], Next(now, e);
    }

    method EmitAll(events: seq<AgentEvent>)
      requires InRun()
      modifies this
      ensures InRun() && trace == old(trace) + events && now == After(old(now), events)
      ensures base == old(base) && isStreaming == old(isStreaming) && activeRun == old(activeRun)
    {
      for i := 0 to |events|
        invariant InRun() && trace == old(trace) + events[..i]
        invariant base == old(base) && isStreaming == old(isStreaming) && activeRun == old(activeRun)
      {
        Emit(events[i]);
        assert events[..i + 1] == events[..i] + [events[i]];
      }
      assert events[..|events|] == events;
      AfterAppend(Initial, old(trace), events);
      ReachesIff(Initial, old(trace), old(now));
      ReachesIff(Initial, trace, now);
    }

    // Setters run between any two steps of a run; they change nothing but the queues.
    method Enact(ops: seq<QueueOp>)
      requires Valid()
      modifies steering, followUp
      ensures Valid() && QueuesNow() == OpsOn(old(QueuesNow()), ops)
      ensures DeliveredOf(steering.fates) == old(DeliveredOf(steering.fates))
      ensures DeliveredOf(followUp.fates) == old(DeliveredOf(followUp.fates))
    {
      for i := 0 to |ops|
        invariant Valid() && QueuesNow() == OpsUpTo(old(QueuesNow()), ops, i)
        invariant DeliveredOf(steering.fates) == old(DeliveredOf(steering.fates))
        invariant DeliveredOf(followUp.fates) == old(DeliveredOf(followUp.fates))
      {
        match ops[i] {
          case Steer(m) => steering.Enqueue(m);
          case FollowUp(m) => followUp.Enqueue(m);
          case ClearSteering => var _ := steering.TakeAll();
          case ClearFollowUp => var _ := followUp.TakeAll();
          case SetSteeringMode(mode) => steering.SetMode(mode);
          case SetFollowUpMode(mode) => followUp.SetMode(mode);
        }
      }
    }
  }
}
