// Running the tool calls of one reply (grain-agent-core/src/agent_loop.rs): one after the
// other, or concurrently with an update latch per call.
module ToolBatch {
  import opened Messages
  import opened AgentEvents

  datatype Attempt<+T> = Ok(value: T) | Err(message: string)

  datatype ToolOutput = ToolOutput(content: seq<UserContent>, terminate: Option<bool>)

  datatype BeforeOutcome = BeforeOutcome(block: bool, reason: Option<string>, arguments: Option<string>)

  datatype AfterOutcome = AfterOutcome(content: Option<seq<UserContent>>, terminate: Option<bool>, isError: Option<bool>)

  // A tool, and the hooks around it, are functions of what they are given; the context and
  // the reply they also see are the same for every call of a batch.
  datatype Tool = Tool(
    name: string,
    sequential: bool,
    prepare: string -> Attempt<string>,
    validate: string -> Attempt<string>,
    execute: (string, string) -> Attempt<ToolOutput>)

  datatype Toolbox = Toolbox(
    tools: seq<Tool>,
    sequential: bool,
    before: Option<(ToolCall, string) -> Attempt<Option<BeforeOutcome>>>,
    after: Option<(ToolCall, string, ToolOutput, bool) -> Attempt<Option<AfterOutcome>>>)

  // What the cancellation token said at the three places where one call polls it.
  datatype Polls = Polls(afterHook: bool, atEnd: bool, afterCall: bool)

  datatype Preparation = Immediate(text: string) | Prepared(arguments: string)

  datatype Finalized = Finalized(call: ToolCall, output: ToolOutput, isError: bool)

  datatype Batch = Batch(results: seq<ToolResultMessage>, terminate: bool)

  function ErrorOutput(text: string): ToolOutput { ToolOutput([UserText(text)], None) }

  function FindTool(tools: seq<Tool>, name: string): Option<Tool> {
    if tools == [] then None
    else if tools[0].name == name then Some(tools[0])
    else FindTool(tools[1..], name)
  }

  function Checked(tool: Tool, arguments: string): Attempt<string> {
    match tool.prepare(arguments)
    case Err(e) => Err(e)
    case Ok(prepared) => tool.validate(prepared)
  }

  function Prepare(box: Toolbox, call: ToolCall, polls: Polls): Preparation {
    match FindTool(box.tools, call.name)
    case None => Immediate("Tool " + call.name + " not found")
    case Some(tool) =>
      match Checked(tool, call.arguments)
      case Err(e) => Immediate(e)
      case Ok(valid) =>
        var hooked := if box.before.None? then Prepared(valid) else AfterBefore(box.before.value(call, valid), valid, polls);
        if hooked.Prepared? && polls.atEnd then Immediate("Operation aborted") else hooked
  }

  function AfterBefore(outcome: Attempt<Option<BeforeOutcome>>, valid: string, polls: Polls): Preparation {
    match outcome
    case Err(e) => Immediate(e)
    case Ok(decision) =>
      if polls.afterHook then Immediate("Operation aborted")
      else if decision.None? then Prepared(valid)
      else if decision.value.block then
        Immediate(if decision.value.reason.Some? then decision.value.reason.value else "Tool execution was blocked")
      else Prepared(if decision.value.arguments.Some? then decision.value.arguments.value else valid)
  }

  datatype Outcome = Outcome(output: ToolOutput, isError: bool)

  // The executed result with the after hook's fields laid over it.
  function FinalizeExecuted(box: Toolbox, call: ToolCall, arguments: string): Outcome {
    var tool := FindTool(box.tools, call.name);
    var executed := if tool.Some? then tool.value.execute(call.id, arguments) else Err("");
    var output := if executed.Ok? then executed.value else ErrorOutput(executed.message);
    if box.after.None? then Outcome(output, executed.Err?)
    else
      match box.after.value(call, arguments, output, executed.Err?)
      case Err(e) => Outcome(ErrorOutput(e), true)
      case Ok(None) => Outcome(output, executed.Err?)
      case Ok(Some(a)) =>
        Outcome(
          ToolOutput(if a.content.Some? then a.content.value else output.content,
            if a.terminate.Some? then a.terminate else output.terminate),
          if a.isError.Some? then a.isError.value else executed.Err?)
  }

  // All a batch needs to know of its tools: how a call is prepared, and how a prepared
  // call ends.
  datatype Executor = Executor(
    prepare: (ToolCall, Polls) -> Preparation,
    finish: (ToolCall, string) -> Outcome)

  function ExecutorOf(box: Toolbox): Executor {
    Executor((call, polls) => Prepare(box, call, polls), (call, arguments) => FinalizeExecuted(box, call, arguments))
  }

  function Rejected(call: ToolCall, text: string): Finalized { Finalized(call, ErrorOutput(text), true) }

  function Executed(x: Executor, call: ToolCall, arguments: string): Finalized {
    var outcome := x.finish(call, arguments);
    Finalized(call, outcome.output, outcome.isError)
  }

  function Finalize(x: Executor, call: ToolCall, polls: Polls): (f: Finalized)
    ensures f.call == call
  {
    match x.prepare(call, polls)
    case Immediate(text) => Rejected(call, text)
    case Prepared(arguments) => Executed(x, call, arguments)
  }

  function ResultMessage(f: Finalized): ToolResultMessage {
    ToolResultMessage(f.call.id, f.call.name, f.output.content, f.isError)
  }

  function Results(fs: seq<Finalized>): (rs: seq<ToolResultMessage>) {
    seq(|fs|, i requires 0 <= i < |fs| => ResultMessage(fs[i]))
  }

  predicate ShouldTerminate(fs: seq<Finalized>) {
    fs != [] && forall i :: 0 <= i < |fs| ==> fs[i].output.terminate == Some(true)
  }

  // What a batch means, whatever the order its calls were executed in: the first n calls
  // answered in source order, where n is all of them or the first poll that saw a
  // cancellation after a call.
  ghost function Finals(x: Executor, calls: seq<ToolCall>, polls: nat -> Polls, n: nat): (fs: seq<Finalized>)
    requires n <= |calls|
  {
    seq(n, i requires 0 <= i < n => Finalize(x, calls[i], polls(i)))
  }

  ghost predicate IsReach(polls: nat -> Polls, total: nat, n: nat) {
    && n <= total
    && (total > 0 ==> n > 0)
    && (forall i :: 0 <= i < n - 1 ==> !polls(i).afterCall)
    && (n < total ==> polls(n - 1).afterCall)
  }

  ghost predicate IsBatch(x: Executor, calls: seq<ToolCall>, polls: nat -> Polls, b: Batch) {
    && IsReach(polls, |calls|, |b.results|)
    && b.results == Results(Finals(x, calls, polls, |b.results|))
    && (b.terminate <==> ShouldTerminate(Finals(x, calls, polls, |b.results|)))
  }

  // So two executions of the same calls under the same cancellation agree, in particular a
  // sequential and a concurrent one, and two concurrent ones with different schedules.
  lemma BatchUnique(x: Executor, calls: seq<ToolCall>, polls: nat -> Polls, a: Batch, b: Batch)
    requires IsBatch(x, calls, polls, a) && IsBatch(x, calls, polls, b)
    ensures a == b
  {
    var m, n := |a.results|, |b.results|;
    assert m >= n && n >= m;
  }

  lemma BatchAnswersPrefix(x: Executor, calls: seq<ToolCall>, polls: nat -> Polls, b: Batch)
    requires IsBatch(x, calls, polls, b)
    ensures AnswerPrefix(calls, b.results)
    ensures (forall i :: 0 <= i < |calls| ==> !polls(i).afterCall) ==> |b.results| == |calls|
    ensures b.terminate ==> b.results != []
  {
  }

  // --- What a batch does to a run's events ---

  ghost predicate Replied(m: Monitor) {
    m.pending == {} && (m.phase.Broken? || (m.phase.InTurn? && m.phase.open.None? && m.phase.reply.Some?))
  }

  // Read after a reply, the events add these results to the turn and leave no call executing.
  ghost function Added(m: Monitor, rs: seq<ToolResultMessage>): (after: Monitor)
    requires Replied(m)
    ensures Replied(after)
  {
    Monitor(if m.phase.Broken? then Broken else m.phase.(results := m.phase.results + rs), {}, m.ended + ResultMsgs(rs), m.replies)
  }

  ghost predicate AddResults(events: seq<AgentEvent>, rs: seq<ToolResultMessage>) {
    forall m: Monitor {:trigger After(m, events)} :: Replied(m) ==> After(m, events) == Added(m, rs)
  }

  lemma {:induction false} ResultMsgsAppend(a: seq<ToolResultMessage>, b: seq<ToolResultMessage>)
    ensures ResultMsgs(a + b) == ResultMsgs(a) + ResultMsgs(b)
    decreases |b|
  {
    if b == [] {
      assert a + b == a;
    } else {
      var front := b[..|b| - 1];
      assert (a + b)[..|a + b| - 1] == a + front;
      ResultMsgsAppend(a, front);
    }
  }

  lemma AddedTwice(m: Monitor, a: seq<ToolResultMessage>, b: seq<ToolResultMessage>)
    requires Replied(m)
    ensures Added(Added(m, a), b) == Added(m, a + b)
  {
    ResultMsgsAppend(a, b);
    assert m.phase.InTurn? ==> m.phase.results + a + b == m.phase.results + (a + b);
    assert m.ended + ResultMsgs(a) + ResultMsgs(b) == m.ended + (ResultMsgs(a) + ResultMsgs(b));
  }

  lemma AddResultsInTurn(a: seq<AgentEvent>, ra: seq<ToolResultMessage>, b: seq<AgentEvent>, rb: seq<ToolResultMessage>)
    requires AddResults(a, ra) && AddResults(b, rb)
    ensures AddResults(a + b, ra + rb)
  {
    forall m: Monitor | Replied(m)
      ensures After(m, a + b) == Added(m, ra + rb)
    {
      AfterAppend(m, a, b);
      AddedTwice(m, ra, rb);
    }
  }

  function ResultEvents(r: ToolResultMessage): seq<AgentEvent> {
    [MessageStart(ResultMsg(r)), MessageEnd(ResultMsg(r))]
  }

  lemma OneResult(r: ToolResultMessage)
    ensures AddResults(ResultEvents(r), [r])
  {
    var events := ResultEvents(r);
    assert ResultMsgs([r]) == [ResultMsg(r)] by {
      assert [r][..0] == [];
    }
    forall m: Monitor | Replied(m)
      ensures After(m, events) == Added(m, [r])
    {
      assert Watch(m, events, 0) == m;
      var started := Watch(m, events, 1);
      assert started == Next(m, events[0]);
      assert started == Monitor(if m.phase.Broken? then Broken else m.phase.(open := Some(ResultMsg(r))), {}, m.ended + [], m.replies);
      assert Watch(m, events, 2) == Next(started, events[1]);
    }
  }

  // Tool execution events change nothing but the set of calls executing.
  predicate IsToolEvent(e: AgentEvent) {
    e.ToolExecutionStart? || e.ToolExecutionUpdate? || e.ToolExecutionEnd?
  }

  ghost function Executing(events: seq<AgentEvent>): set<string> {
    if events == [] then {} else NextPending(Executing(events[..|events| - 1]), events[|events| - 1])
  }

  lemma {:induction false} ToolEventsOnly(m: Monitor, events: seq<AgentEvent>)
    requires Replied(m) && forall e :: e in events ==> IsToolEvent(e)
    ensures After(m, events) == Monitor(m.phase, Executing(events), m.ended, m.replies)
    decreases |events|
  {
    if events != [] {
      var front, last := events[..|events| - 1], events[|events| - 1];
      ToolEventsOnly(m, front);
      assert events == front + [last];
      AfterOne(m, front, last);
      assert IsToolEvent(last) && EndedBy(last) == [] && RepliedBy(last) == [];
    }
  }

  lemma ToolEventsAddNothing(events: seq<AgentEvent>)
    requires Executing(events) == {} && forall e :: e in events ==> IsToolEvent(e)
    ensures AddResults(events, [])
  {
    forall m: Monitor | Replied(m)
      ensures After(m, events) == Added(m, [])
    {
      ToolEventsOnly(m, events);
      assert m.phase.InTurn? ==> m.phase.results + [] == m.phase.results;
    }
  }
}
