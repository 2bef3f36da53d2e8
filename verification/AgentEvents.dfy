// The events a run emits and the grammar they follow (grain-agent-core/src/types.rs and
// agent_loop.rs).
module AgentEvents {
  import opened Messages

  datatype AgentEvent =
    | AgentStart
    | AgentEnd(messages: seq<AgentMessage>)
    | TurnStart
    | TurnEnd(message: AssistantMessage, toolResults: seq<ToolResultMessage>)
    | MessageStart(started: AgentMessage)
    | MessageUpdate(partial: AssistantMessage)
    | MessageEnd(ended: AgentMessage)
    | ToolExecutionStart(startedId: string)
    | ToolExecutionUpdate(updatedId: string, partialResult: string)
    | ToolExecutionEnd(endedId: string, isError: bool)

  function AssistantMsg(a: AssistantMessage): AgentMessage { Standard(Assistant(a)) }

  function ResultMsg(r: ToolResultMessage): AgentMessage { Standard(ToolResult(r)) }

  function ResultMsgs(rs: seq<ToolResultMessage>): (ms: seq<AgentMessage>)
    ensures |ms| == |rs|
  {
    if rs == [] then [] else ResultMsgs(rs[..|rs| - 1]) + [ResultMsg(rs[|rs| - 1])]
  }

  predicate Failed(a: AssistantMessage) {
    a.stopReason.Error? || a.stopReason.Aborted?
  }

  // Results answer the calls in source order: all of them, or the calls up to where a
  // cancellation was seen, which is never none.
  predicate AnswerPrefix(calls: seq<ToolCall>, rs: seq<ToolResultMessage>) {
    && |rs| <= |calls|
    && (calls != [] ==> rs != [])
    && forall i :: 0 <= i < |rs| ==> rs[i].callId == calls[i].id
  }

  // A monitor that reads a run's events one at a time. It remembers the message being
  // streamed, the reply and the results of the turn, the calls still executing, and every
  // message ended and the reply of every turn ended so far.
  datatype Phase =
    | Idle
    | Between(last: Option<AssistantMessage>)
    | InTurn(open: Option<AgentMessage>, reply: Option<AssistantMessage>, results: seq<ToolResultMessage>)
    | Over
    | Broken

  datatype Monitor = Monitor(phase: Phase, pending: set<string>, ended: seq<AgentMessage>, replies: seq<AssistantMessage>)

  const Initial := Monitor(Idle, {}, [], [])

  // A message ends as it started, except that a reply may have grown while it streamed.
  predicate Closes(open: Option<AgentMessage>, m: AgentMessage) {
    && open.Some?
    && if m.Standard? && m.message.Assistant? then open.value.Standard? && open.value.message.Assistant? else open.value == m
  }

  // The last reply ended in a turn is the turn's, and the results ended after it are its
  // results; a prompt or an injected message starts that over.
  function PhaseAfterEnd(p: Phase, m: AgentMessage): Phase
    requires p.InTurn?
  {
    if !Closes(p.open, m) then Broken
    else if m.Standard? && m.message.Assistant? then InTurn(None, Some(m.message.assistant), [])
    else if m.Standard? && m.message.ToolResult? && p.reply.Some? then
      InTurn(None, p.reply, p.results + [m.message.result])
    else InTurn(None, None, [])
  }

  predicate MayEndTurn(m: Monitor, a: AssistantMessage, rs: seq<ToolResultMessage>) {
    && m.phase.InTurn? && m.phase.open.None? && m.pending == {}
    && m.phase.reply == Some(a) && m.phase.results == rs
    && if Failed(a) then rs == [] else AnswerPrefix(Calls(a.content), rs)
  }

  function NextPhase(m: Monitor, e: AgentEvent): Phase {
    match e
    case AgentStart =>
      if m.phase.Idle? then Between(None) else Broken
    case TurnStart =>
      if m.phase.Between? && (m.phase.last.Some? ==> !Failed(m.phase.last.value))
      then InTurn(None, None, []) else Broken
    case TurnEnd(a, rs) =>
      if MayEndTurn(m, a, rs) then Between(Some(a)) else Broken
    case AgentEnd(ms) =>
      if m.phase.Between? && m.replies != [] && ms == m.ended then Over else Broken
    case MessageStart(s) =>
      if m.phase.InTurn? && m.phase.open.None? then m.phase.(open := Some(s)) else Broken
    case MessageUpdate(a) =>
      if m.phase.InTurn? && m.phase.open.Some? && m.phase.open.value.Standard? && m.phase.open.value.message.Assistant?
      then m.phase else Broken
    case MessageEnd(s) =>
      if m.phase.InTurn? then PhaseAfterEnd(m.phase, s) else Broken
    case _ =>
      if m.phase.InTurn? && m.phase.open.None? && m.phase.reply.Some? then m.phase else Broken
  }

  function NextPending(pending: set<string>, e: AgentEvent): set<string> {
    match e
    case ToolExecutionStart(id) => pending + {id}
    case ToolExecutionEnd(id, _) => pending - {id}
    case _ => pending
  }

  function EndedBy(e: AgentEvent): (ms: seq<AgentMessage>) {
    if e.MessageEnd? then [e.ended] else []
  }

  function RepliedBy(e: AgentEvent): (replies: seq<AssistantMessage>) {
    if e.TurnEnd? then [e.message] else []
  }

  function Next(m: Monitor, e: AgentEvent): Monitor {
    Monitor(NextPhase(m, e), NextPending(m.pending, e), m.ended + EndedBy(e), m.replies + RepliedBy(e))
  }

  // The monitor after the first n events, read from m.
  function Watch(m: Monitor, events: seq<AgentEvent>, n: nat): Monitor
    requires n <= |events|
  {
    if n == 0 then m else Next(Watch(m, events, n - 1), events[n - 1])
  }

  function After(m: Monitor, events: seq<AgentEvent>): Monitor {
    Watch(m, events, |events|)
  }

  lemma {:induction false} WatchPrefix(m: Monitor, a: seq<AgentEvent>, b: seq<AgentEvent>, n: nat)
    requires n <= |a|
    ensures Watch(m, a + b, n) == Watch(m, a, n)
  {
    if n > 0 {
      assert (a + b)[n - 1] == a[n - 1];
      WatchPrefix(m, a, b, n - 1);
    }
  }

  lemma {:induction false} WatchRest(m: Monitor, a: seq<AgentEvent>, b: seq<AgentEvent>, n: nat)
    requires n <= |b|
    ensures Watch(m, a + b, |a| + n) == Watch(After(m, a), b, n)
  {
    if n == 0 {
      WatchPrefix(m, a, b, |a|);
    } else {
      assert (a + b)[|a| + n - 1] == b[n - 1];
      WatchRest(m, a, b, n - 1);
    }
  }

  lemma AfterAppend(m: Monitor, a: seq<AgentEvent>, b: seq<AgentEvent>)
    ensures After(m, a + b) == After(After(m, a), b)
  {
    WatchRest(m, a, b, |b|);
  }

  lemma AfterOne(m: Monitor, a: seq<AgentEvent>, e: AgentEvent)
    ensures After(m, a + [e]) == Next(After(m, a), e)
  {
    AfterAppend(m, a, [e]);
    assert Watch(After(m, a), [e], 1) == Next(Watch(After(m, a), [e], 0), e);
  }

  // The same, as a run of the monitor's states.
  ghost predicate WatchStep(states: seq<Monitor>, events: seq<AgentEvent>, i: nat)
    requires i < |events| && |states| == |events| + 1
  {
    states[i + 1] == Next(states[i], events[i])
  }

  ghost predicate IsWatch(states: seq<Monitor>, m: Monitor, events: seq<AgentEvent>) {
    && |states| == |events| + 1 && states[0] == m
    && forall i :: 0 <= i < |events| ==> WatchStep(states, events, i)
  }

  ghost predicate Reaches(m: Monitor, events: seq<AgentEvent>, to: Monitor) {
    exists states :: IsWatch(states, m, events) && states[|events|] == to
  }

  lemma {:induction false} WatchedStates(states: seq<Monitor>, m: Monitor, events: seq<AgentEvent>, n: nat)
    requires IsWatch(states, m, events) && n <= |events|
    ensures states[n] == Watch(m, events, n)
  {
    if n > 0 {
      WatchedStates(states, m, events, n - 1);
      assert WatchStep(states, events, n - 1);
    }
  }

  lemma ReachesIff(m: Monitor, events: seq<AgentEvent>, to: Monitor)
    ensures Reaches(m, events, to) <==> to == After(m, events)
  {
    if Reaches(m, events, to) {
      var states :| IsWatch(states, m, events) && states[|events|] == to;
      WatchedStates(states, m, events, |events|);
    } else {
      var states := seq(|events| + 1, i requires 0 <= i <= |events| => Watch(m, events, i));
      forall i | 0 <= i < |events| ensures WatchStep(states, events, i) {}
      assert IsWatch(states, m, events);
    }
  }

  // A run that follows the grammar and is over reported exactly the messages it ended.
  ghost predicate Accepted(trace: seq<AgentEvent>) {
    After(Initial, trace).phase.Over?
  }

  lemma OnlyEndsItsRun(m: Monitor, e: AgentEvent)
    requires NextPhase(m, e).Over?
    ensures e == AgentEnd(Next(m, e).ended)
  {
  }

  lemma AcceptedReportsWhatEnded(trace: seq<AgentEvent>)
    requires Accepted(trace)
    ensures trace != [] && trace[|trace| - 1] == AgentEnd(After(Initial, trace).ended)
  {
    var last := trace[|trace| - 1];
    assert After(Initial, trace) == Next(Watch(Initial, trace, |trace| - 1), last);
    OnlyEndsItsRun(Watch(Initial, trace, |trace| - 1), last);
  }

  // Once the grammar is broken it stays broken.
  lemma {:induction false} WatchFurther(m: Monitor, events: seq<AgentEvent>, k: nat, n: nat)
    requires k <= n <= |events| && Watch(m, events, k).phase.Broken?
    ensures Watch(m, events, n).phase.Broken?
    decreases n
  {
    if k < n {
      WatchFurther(m, events, k, n - 1);
    }
  }

  // In such a run no call is still executing at the end of a turn, no message is open, and
  // the turn reports its own reply with results answering that reply's calls.
  lemma {:induction false} AcceptedTurnEnds(trace: seq<AgentEvent>)
    requires Accepted(trace)
    ensures forall k :: 0 <= k < |trace| && trace[k].TurnEnd? ==>
      MayEndTurn(Watch(Initial, trace, k), trace[k].message, trace[k].toolResults)
  {
    forall k | 0 <= k < |trace| && trace[k].TurnEnd?
      ensures MayEndTurn(Watch(Initial, trace, k), trace[k].message, trace[k].toolResults)
    {
      if !MayEndTurn(Watch(Initial, trace, k), trace[k].message, trace[k].toolResults) {
        assert NextPhase(Watch(Initial, trace, k), trace[k]).Broken?;
        WatchFurther(Initial, trace, k + 1, |trace|);
      }
    }
  }
}
