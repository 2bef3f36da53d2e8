// Executing prepared calls concurrently (agent_loop.rs): one slot per call, one step
// per awaited emission or locked section.
module ToolSchedule {
  import opened Messages
  import opened AgentEvents
  import opened ToolBatch
  import ToolOutcomes

  // A running call holds the latch and the update emissions in flight. Beside them the slot
  // records which updates were accepted, and which were emitted.
  datatype Slot =
    | Running(call: ToolCall, arguments: string, accepting: bool, tasks: seq<string>, accepted: seq<string>, emitted: seq<string>)
    | Done(final: Finalized, accepted: seq<string>, emitted: seq<string>)

  datatype Tagged = Tagged(slot: nat, event: AgentEvent)

  datatype Machine = Machine(slots: seq<Slot>, log: seq<Tagged>)

  datatype Step =
    | Arrive(slot: nat, partial: string)  // the tool calls its update callback
    | Emit(slot: nat, task: nat)          // an update emission in flight completes
    | Settle(slot: nat)                   // the tool returns and the latch closes
    | Finish(slot: nat)                   // nothing in flight: finalize, emit the end

  function CallOf(slot: Slot): ToolCall {
    if slot.Running? then slot.call else slot.final.call
  }

  predicate SlotEnabled(slot: Slot, s: Step) {
    match s
    case Arrive(_, _) => true
    case Emit(_, k) => slot.Running? && k < |slot.tasks|
    case Settle(_) => slot.Running? && slot.accepting
    case Finish(_) => slot.Running? && !slot.accepting && slot.tasks == []
  }

  function SlotStep(x: Executor, slot: Slot, s: Step): Slot
    requires SlotEnabled(slot, s)
  {
    match s
    case Arrive(_, u) =>
      if slot.Running? && slot.accepting then slot.(tasks := slot.tasks + [u], accepted := slot.accepted + [u]) else slot
    case Emit(_, k) =>
      slot.(tasks := slot.tasks[..k] + slot.tasks[k + 1..], emitted := slot.emitted + [slot.tasks[k]])
    case Settle(_) => slot.(accepting := false)
    case Finish(_) => Done(Executed(x, slot.call, slot.arguments), slot.accepted, slot.emitted)
  }

  function SlotEmits(x: Executor, slot: Slot, s: Step): seq<AgentEvent>
    requires SlotEnabled(slot, s)
  {
    match s
    case Emit(_, k) => [ToolExecutionUpdate(slot.call.id, slot.tasks[k])]
    case Finish(_) => [ToolExecutionEnd(slot.call.id, Executed(x, slot.call, slot.arguments).isError)]
    case _ => []
  }

  predicate Enabled(m: Machine, s: Step) {
    s.slot < |m.slots| && SlotEnabled(m.slots[s.slot], s)
  }

  function Tag(slot: nat, events: seq<AgentEvent>): (log: seq<Tagged>) {
    seq(|events|, k requires 0 <= k < |events| => Tagged(slot, events[k]))
  }

  function Events(log: seq<Tagged>): (events: seq<AgentEvent>) {
    seq(|log|, k requires 0 <= k < |log| => log[k].event)
  }

  function Apply(x: Executor, m: Machine, s: Step): Machine
    requires Enabled(m, s)
  {
    var slot := m.slots[s.slot];
    Machine(m.slots[s.slot := SlotStep(x, slot, s)], m.log + Tag(s.slot, SlotEmits(x, slot, s)))
  }

  // --- What a slot has emitted ---

  function Updates(id: string, partials: seq<string>): seq<AgentEvent> {
    seq(|partials|, k requires 0 <= k < |partials| => ToolExecutionUpdate(id, partials[k]))
  }

  // One start, then the updates emitted so far, then one end once the call is done.
  function SlotTrace(slot: Slot): seq<AgentEvent> {
    [ToolExecutionStart(CallOf(slot).id)] + Updates(CallOf(slot).id, slot.emitted)
    + if slot.Done? then [ToolExecutionEnd(slot.final.call.id, slot.final.isError)] else []
  }

  // No accepted update is lost or repeated, and a call that is done holds the result that
  // its inputs determine.
  ghost predicate SlotOk(x: Executor, call: ToolCall, polls: Polls, slot: Slot) {
    if slot.Running? then
      && slot.call == call
      && x.prepare(call, polls) == Prepared(slot.arguments)
      && multiset(slot.emitted) + multiset(slot.tasks) == multiset(slot.accepted)
    else
      && slot.final == Finalize(x, call, polls)
      && multiset(slot.emitted) == multiset(slot.accepted)
  }

  lemma TakeOne(tasks: seq<string>, k: nat)
    requires k < |tasks|
    ensures multiset(tasks[..k] + tasks[k + 1..]) + multiset{tasks[k]} == multiset(tasks)
  {
    assert tasks == tasks[..k] + [tasks[k]] + tasks[k + 1..];
  }

  lemma SlotStepOk(x: Executor, call: ToolCall, polls: Polls, slot: Slot, s: Step)
    requires SlotOk(x, call, polls, slot) && SlotEnabled(slot, s)
    ensures SlotOk(x, call, polls, SlotStep(x, slot, s))
  {
    match s
    case Arrive(_, _) =>
    case Emit(_, k) =>
      TakeOne(slot.tasks, k);
      assert multiset(slot.emitted + [slot.tasks[k]]) == multiset(slot.emitted) + multiset{slot.tasks[k]};
    case Settle(_) =>
    case Finish(_) =>
      assert multiset(slot.tasks) == multiset{};
  }

  lemma SlotStepTrace(x: Executor, call: ToolCall, polls: Polls, slot: Slot, s: Step)
    requires SlotOk(x, call, polls, slot) && SlotEnabled(slot, s)
    ensures SlotTrace(SlotStep(x, slot, s)) == SlotTrace(slot) + SlotEmits(x, slot, s)
  {
  }

  ghost function Seen(log: seq<Tagged>, slot: nat): seq<AgentEvent> {
    if log == [] then []
    else
      var last := log[|log| - 1];
      Seen(log[..|log| - 1], slot) + if last.slot == slot then [last.event] else []
  }

  lemma SeenNext(log: seq<Tagged>, t: Tagged, slot: nat)
    ensures Seen(log + [t], slot) == Seen(log, slot) + if t.slot == slot then [t.event] else []
  {
    assert (log + [t])[..|log|] == log;
  }

  lemma {:induction false} SeenTagged(log: seq<Tagged>, i: nat, events: seq<AgentEvent>, slot: nat)
    ensures Seen(log + Tag(i, events), slot) == Seen(log, slot) + if i == slot then events else []
    decreases |events|
  {
    if events == [] {
      assert log + Tag(i, events) == log;
    } else {
      var front, last := events[..|events| - 1], events[|events| - 1];
      SeenTagged(log, i, front, slot);
      SeenNext(log + Tag(i, front), Tagged(i, last), slot);
      assert log + Tag(i, events) == log + Tag(i, front) + [Tagged(i, last)];
    }
  }

  // --- The invariant of every run ---

  ghost predicate SlotsOk(x: Executor, calls: seq<ToolCall>, polls: nat -> Polls, m: Machine) {
    && |m.slots| <= |calls|
    && forall i :: 0 <= i < |m.slots| ==> SlotOk(x, calls[i], polls(i), m.slots[i])
  }

  // Each call's events are its own start, updates and end, in that order.
  ghost predicate Bracketed(m: Machine) {
    && (forall i :: 0 <= i < |m.slots| ==> Seen(m.log, i) == SlotTrace(m.slots[i]))
    && (forall i: nat :: |m.slots| <= i ==> Seen(m.log, i) == [])
  }

  ghost predicate Runs(m: Machine, id: string) {
    exists i :: 0 <= i < |m.slots| && m.slots[i].Running? && m.slots[i].call.id == id
  }

  ghost predicate OnlyRunningPend(m: Machine) {
    && (forall e :: e in Events(m.log) ==> IsToolEvent(e))
    && (forall id :: id in Executing(Events(m.log)) ==> Runs(m, id))
  }

  ghost predicate Sound(x: Executor, calls: seq<ToolCall>, polls: nat -> Polls, m: Machine) {
    SlotsOk(x, calls, polls, m) && Bracketed(m) && OnlyRunningPend(m)
  }

  lemma ExecutingNext(log: seq<Tagged>, t: Tagged)
    ensures Events(log + [t]) == Events(log) + [t.event]
    ensures Executing(Events(log + [t])) == NextPending(Executing(Events(log)), t.event)
  {
    assert Events(log + [t]) == Events(log) + [t.event];
    ExecutingOne(Events(log), t.event);
  }

  lemma StepKeepsPending(x: Executor, m: Machine, s: Step)
    requires OnlyRunningPend(m) && Enabled(m, s)
    ensures OnlyRunningPend(Apply(x, m, s))
  {
    var slot, after := m.slots[s.slot], Apply(x, m, s);
    var emits := SlotEmits(x, slot, s);
    if emits == [] {
      assert after.log == m.log;
    } else {
      var t := Tagged(s.slot, emits[0]);
      assert after.log == m.log + [t];
      ExecutingNext(m.log, t);
    }
    forall id | id in Executing(Events(after.log))
      ensures Runs(after, id)
    {
      assert id in Executing(Events(m.log));
      var i :| 0 <= i < |m.slots| && m.slots[i].Running? && m.slots[i].call.id == id;
      assert after.slots[i].Running? && after.slots[i].call.id == id;
    }
  }

  lemma StepKeepsBrackets(x: Executor, calls: seq<ToolCall>, polls: nat -> Polls, m: Machine, s: Step)
    requires SlotsOk(x, calls, polls, m) && Bracketed(m) && Enabled(m, s)
    ensures Bracketed(Apply(x, m, s))
  {
    var slot, after := m.slots[s.slot], Apply(x, m, s);
    SlotStepTrace(x, calls[s.slot], polls(s.slot), slot, s);
    forall i: nat
      ensures Seen(after.log, i) == Seen(m.log, i) + if i == s.slot then SlotEmits(x, slot, s) else []
    {
      SeenTagged(m.log, s.slot, SlotEmits(x, slot, s), i);
    }
  }

  lemma StepKeepsSound(x: Executor, calls: seq<ToolCall>, polls: nat -> Polls, m: Machine)
    requires Sound(x, calls, polls, m)
    ensures forall s :: Enabled(m, s) ==> Sound(x, calls, polls, Apply(x, m, s)) && |Apply(x, m, s).slots| == |m.slots|
  {
    forall s | Enabled(m, s)
      ensures Sound(x, calls, polls, Apply(x, m, s)) && |Apply(x, m, s).slots| == |m.slots|
    {
      SlotStepOk(x, calls[s.slot], polls(s.slot), m.slots[s.slot], s);
      StepKeepsPending(x, m, s);
      StepKeepsBrackets(x, calls, polls, m, s);
    }
  }

  ghost predicate IsStep(x: Executor, states: seq<Machine>, steps: seq<Step>, k: nat)
    requires k < |steps| && |states| == |steps| + 1
  {
    Enabled(states[k], steps[k]) && states[k + 1] == Apply(x, states[k], steps[k])
  }

  ghost predicate IsSchedule(x: Executor, states: seq<Machine>, steps: seq<Step>) {
    |states| == |steps| + 1 && forall k :: 0 <= k < |steps| ==> IsStep(x, states, steps, k)
  }

  predicate AllDone(m: Machine) {
    forall i :: 0 <= i < |m.slots| ==> m.slots[i].Done?
  }

  function FinalsOf(m: Machine): (fs: seq<Finalized>)
    requires AllDone(m)
  {
    seq(|m.slots|, i requires 0 <= i < |m.slots| => m.slots[i].final)
  }

  lemma {:induction false} ScheduleKeepsSound(x: Executor, calls: seq<ToolCall>, polls: nat -> Polls, states: seq<Machine>, steps: seq<Step>, k: nat)
    requires IsSchedule(x, states, steps) && Sound(x, calls, polls, states[0]) && k <= |steps|
    ensures forall j :: 0 <= j <= k ==> Sound(x, calls, polls, states[j]) && |states[j].slots| == |states[0].slots|
  {
    if k > 0 {
      ScheduleKeepsSound(x, calls, polls, states, steps, k - 1);
      assert IsStep(x, states, steps, k - 1);
      StepKeepsSound(x, calls, polls, states[k - 1]);
    }
  }

  // Every schedule that completes gives the results the inputs determine, in source order,
  // each call's accepted updates lie between its start and its end, and no call is left
  // executing.
  lemma EveryScheduleAgrees(x: Executor, calls: seq<ToolCall>, polls: nat -> Polls, states: seq<Machine>, steps: seq<Step>)
    requires IsSchedule(x, states, steps) && Sound(x, calls, polls, states[0]) && AllDone(states[|steps|])
    ensures |states[0].slots| <= |calls|
    ensures FinalsOf(states[|steps|]) == Finals(x, calls, polls, |states[0].slots|)
    ensures Executing(Events(states[|steps|].log)) == {}
    ensures forall i :: 0 <= i < |states[0].slots| ==>
      var slot := states[|steps|].slots[i];
      && Seen(states[|steps|].log, i) ==
           [ToolExecutionStart(calls[i].id)] + Updates(calls[i].id, slot.emitted)
           + [ToolExecutionEnd(calls[i].id, Finalize(x, calls[i], polls(i)).isError)]
      && multiset(slot.emitted) == multiset(slot.accepted)
  {
    ScheduleKeepsSound(x, calls, polls, states, steps, |steps|);
    DoneMeansDone(x, calls, polls, states[|steps|]);
  }

  lemma DoneMeansDone(x: Executor, calls: seq<ToolCall>, polls: nat -> Polls, m: Machine)
    requires Sound(x, calls, polls, m) && AllDone(m)
    ensures FinalsOf(m) == Finals(x, calls, polls, |m.slots|)
    ensures Executing(Events(m.log)) == {}
  {
    forall i | 0 <= i < |m.slots|
      ensures m.slots[i].final == Finalize(x, calls[i], polls(i))
    {
      assert SlotOk(x, calls[i], polls(i), m.slots[i]);
    }
    forall id ensures !Runs(m, id) {}
  }

  // The updates that arrived at a call before its tool returned.
  ghost function Heard(steps: seq<Step>, slot: nat, n: nat): seq<string>
    requires n <= |steps|
  {
    if n == 0 then []
    else if steps[n - 1].Arrive? && steps[n - 1].slot == slot && Settle(slot) !in steps[..n - 1]
    then Heard(steps, slot, n - 1) + [steps[n - 1].partial]
    else Heard(steps, slot, n - 1)
  }

  predicate Accepts(slot: Slot) { slot.Running? && slot.accepting }

  lemma StepOnSlot(x: Executor, m: Machine, s: Step, i: nat)
    requires Enabled(m, s) && i < |m.slots|
    ensures |Apply(x, m, s).slots| == |m.slots|
    ensures var slot := Apply(x, m, s).slots[i];
      && slot.accepted == m.slots[i].accepted + (if Accepts(m.slots[i]) && s.Arrive? && s.slot == i then [s.partial] else [])
      && (Accepts(slot) <==> Accepts(m.slots[i]) && s != Settle(i))
  {
    if s.slot != i {
      assert Apply(x, m, s).slots[i] == m.slots[i];
    }
  }

  // Those, and no later one, are what the latch accepts.
  lemma {:induction false} LatchAcceptsWhatIsHeard(x: Executor, states: seq<Machine>, steps: seq<Step>, i: nat, n: nat)
    requires IsSchedule(x, states, steps) && n <= |steps| && i < |states[0].slots|
    requires Accepts(states[0].slots[i]) && states[0].slots[i].accepted == []
    ensures i < |states[n].slots|
    ensures states[n].slots[i].accepted == Heard(steps, i, n)
    ensures Accepts(states[n].slots[i]) <==> Settle(i) !in steps[..n]
  {
    if n > 0 {
      LatchAcceptsWhatIsHeard(x, states, steps, i, n - 1);
      var s := steps[n - 1];
      assert IsStep(x, states, steps, n - 1);
      StepOnSlot(x, states[n - 1], s, i);
      assert Settle(i) in steps[..n] <==> Settle(i) in steps[..n - 1] || s == Settle(i) by {
        assert steps[..n] == steps[..n - 1] + [s];
      }
    }
  }

  // --- The executors ---

  function Fresh(call: ToolCall, p: Preparation): Slot {
    match p
    case Immediate(text) => Done(Rejected(call, text), [], [])
    case Prepared(arguments) => Running(call, arguments, true, [], [], [])
  }

  // A call's start is emitted before it is prepared; one that fails there ends at once.
  function AddSlot(m: Machine, slot: Slot): Machine {
    Machine(m.slots + [slot], m.log + Tag(|m.slots|, SlotTrace(slot)))
  }

  lemma AddSlotKeepsBrackets(m: Machine, slot: Slot)
    requires Bracketed(m)
    ensures Bracketed(AddSlot(m, slot))
  {
    var n, after := |m.slots|, AddSlot(m, slot);
    forall i: nat
      ensures Seen(after.log, i) == Seen(m.log, i) + if i == n then SlotTrace(slot) else []
    {
      SeenTagged(m.log, n, SlotTrace(slot), i);
    }
  }

  lemma EventsTagged(log: seq<Tagged>, n: nat, events: seq<AgentEvent>)
    ensures Events(log + Tag(n, events)) == Events(log) + events
  {
  }

  lemma ExecutingOne(events: seq<AgentEvent>, e: AgentEvent)
    ensures Executing(events + [e]) == NextPending(Executing(events), e)
  {
    assert (events + [e])[..|events|] == events;
  }

  lemma SlotExecutes(events: seq<AgentEvent>, slot: Slot)
    requires slot.emitted == []
    ensures Executing(events + SlotTrace(slot)) ==
      if slot.Running? then Executing(events) + {slot.call.id} else Executing(events) - {slot.final.call.id}
  {
    FreshTrace(slot);
    var start := ToolExecutionStart(CallOf(slot).id);
    ExecutingOne(events, start);
    if slot.Done? {
      var end := ToolExecutionEnd(slot.final.call.id, slot.final.isError);
      assert events + [start, end] == events + [start] + [end];
      ExecutingOne(events + [start], end);
    }
  }

  lemma FreshTrace(slot: Slot)
    requires slot.emitted == []
    ensures SlotTrace(slot) ==
      if slot.Running? then [ToolExecutionStart(slot.call.id)]
      else [ToolExecutionStart(slot.final.call.id), ToolExecutionEnd(slot.final.call.id, slot.final.isError)]
  {
  }

  lemma AddSlotKeepsPending(m: Machine, slot: Slot)
    requires OnlyRunningPend(m) && slot.emitted == []
    ensures OnlyRunningPend(AddSlot(m, slot))
  {
    var after := AddSlot(m, slot);
    EventsTagged(m.log, |m.slots|, SlotTrace(slot));
    SlotExecutes(Events(m.log), slot);
    forall id | Runs(m, id) || (slot.Running? && slot.call.id == id)
      ensures Runs(after, id)
    {
      RunsAfter(m, slot, id);
    }
  }

  lemma RunsAfter(m: Machine, slot: Slot, id: string)
    requires Runs(m, id) || (slot.Running? && slot.call.id == id)
    ensures Runs(AddSlot(m, slot), id)
  {
    var after, n := AddSlot(m, slot), |m.slots|;
    if Runs(m, id) {
      var i :| 0 <= i < n && m.slots[i].Running? && m.slots[i].call.id == id;
      assert after.slots[i] == m.slots[i];
    } else {
      assert after.slots[n] == slot;
    }
  }

  lemma EmptyIsSound(x: Executor, calls: seq<ToolCall>, polls: nat -> Polls)
    ensures Sound(x, calls, polls, Machine([], []))
  {
    assert Events([]) == [];
  }

  // The step that brings one call closer to its end.
  function NextOf(slot: Slot, i: nat): (s: Step)
    requires slot.Running?
    ensures s.slot == i && SlotEnabled(slot, s)
  {
    if slot.accepting then Settle(i) else if slot.tasks != [] then Emit(i, 0) else Finish(i)
  }

  function Left(slot: Slot): nat {
    if slot.Done? then 0 else 1 + |slot.tasks| + if slot.accepting then 1 else 0
  }

  function Advance(x: Executor, m: Machine, i: nat): (after: Machine)
    requires i < |m.slots| && m.slots[i].Running?
    ensures |after.slots| == |m.slots| && Left(after.slots[i]) < Left(m.slots[i])
    ensures forall j :: 0 <= j < |m.slots| && j != i ==> after.slots[j] == m.slots[j]
  {
    Apply(x, m, NextOf(m.slots[i], i))
  }

  // Any schedule, then whatever it left running.
  method RunSchedule(x: Executor, ghost calls: seq<ToolCall>, ghost polls: nat -> Polls, start: Machine, schedule: seq<Step>)
    returns (m: Machine)
    requires Sound(x, calls, polls, start)
    ensures Sound(x, calls, polls, m) && AllDone(m) && |m.slots| == |start.slots|
  {
    m := start;
    for k := 0 to |schedule|
      invariant Sound(x, calls, polls, m) && |m.slots| == |start.slots|
    {
      if Enabled(m, schedule[k]) {
        StepKeepsSound(x, calls, polls, m);
        m := Apply(x, m, schedule[k]);
      }
    }
    m := AwaitAll(x, calls, polls, m);
  }

  method AwaitAll(x: Executor, ghost calls: seq<ToolCall>, ghost polls: nat -> Polls, start: Machine) returns (m: Machine)
    requires Sound(x, calls, polls, start)
    ensures Sound(x, calls, polls, m) && AllDone(m) && |m.slots| == |start.slots|
  {
    m := start;
    var i := 0;
    while i < |m.slots|
      invariant Sound(x, calls, polls, m) && i <= |m.slots| == |start.slots|
      invariant forall j :: 0 <= j < i ==> m.slots[j].Done?
      decreases |m.slots| - i, if i < |m.slots| then Left(m.slots[i]) else 0
    {
      if m.slots[i].Done? {
        i := i + 1;
      } else {
        StepKeepsSound(x, calls, polls, m);
        assert Enabled(m, NextOf(m.slots[i], i));
        m := Advance(x, m, i);
      }
    }
  }

  // `execute_parallel`: prepare in source order until a cancellation is seen, run what was
  // prepared under the schedule, then report the results in source order.
  method ExecuteParallel(x: Executor, calls: seq<ToolCall>, polls: nat -> Polls, schedule: seq<Step>)
    returns (batch: Batch, events: seq<AgentEvent>)
    ensures IsBatch(x, calls, polls, batch)
    ensures AddResults(events, batch.results)
    ensures ReportsLast(events, batch.results)
  {
    var m := Preflight(x, calls, polls);
    m := RunSchedule(x, calls, polls, m, schedule);
    DoneMeansDone(x, calls, polls, m);
    ToolEventsAddNothing(Events(m.log));
    var results;
    results, events := CollectResults(FinalsOf(m), Events(m.log));
    assert events == Events(m.log) + ReportsOf(results);
    batch := Batch(results, ShouldTerminate(FinalsOf(m)));
  }

  // The messages with the results, in order.
  ghost function ReportsOf(rs: seq<ToolResultMessage>): (events: seq<AgentEvent>) {
    if rs == [] then [] else ReportsOf(rs[..|rs| - 1]) + ResultEvents(rs[|rs| - 1])
  }

  // Results are reported once every call has ended.
  ghost predicate ReportsLast(events: seq<AgentEvent>, rs: seq<ToolResultMessage>) {
    exists ran :: ToolEvents(ran) && Executing(ran) == {} && events == ran + ReportsOf(rs)
  }

  ghost predicate ToolEvents(events: seq<AgentEvent>) {
    forall e :: e in events ==> IsToolEvent(e)
  }

  // At no point are two calls executing.
  ghost predicate OneAtATime(events: seq<AgentEvent>) {
    forall n :: 0 <= n <= |events| ==> |Executing(events[..n])| <= 1
  }

  lemma {:induction false} ExecutingAppend(a: seq<AgentEvent>, b: seq<AgentEvent>)
    requires Executing(a) == {}
    ensures Executing(a + b) == Executing(b)
    decreases |b|
  {
    if b == [] {
      assert a + b == a;
    } else {
      var front := b[..|b| - 1];
      assert (a + b)[..|a + b| - 1] == a + front;
      ExecutingAppend(a, front);
    }
  }

  lemma OneAfterTheOther(a: seq<AgentEvent>, b: seq<AgentEvent>)
    requires OneAtATime(a) && OneAtATime(b) && Executing(a) == {} && Executing(b) == {}
    ensures OneAtATime(a + b) && Executing(a + b) == {}
  {
    forall n | 0 <= n <= |a + b|
      ensures |Executing((a + b)[..n])| <= 1
    {
      if n <= |a| {
        assert (a + b)[..n] == a[..n];
      } else {
        assert (a + b)[..n] == a + b[..n - |a|];
        ExecutingAppend(a, b[..n - |a|]);
      }
    }
    ExecutingAppend(a, b);
  }

  // Events that start and end no other call.
  lemma {:induction false} OnlyThisCall(events: seq<AgentEvent>, id: string, n: nat)
    requires n <= |events|
    requires forall e :: e in events ==> (e.ToolExecutionStart? ==> e.startedId == id)
    ensures Executing(events[..n]) <= {id}
  {
    if n > 0 {
      OnlyThisCall(events, id, n - 1);
      assert events[..n][..n - 1] == events[..n - 1] && events[..n][n - 1] == events[n - 1];
    }
  }

  lemma OneCallOneAtATime(events: seq<AgentEvent>, id: string)
    requires forall e :: e in events ==> (e.ToolExecutionStart? ==> e.startedId == id)
    ensures OneAtATime(events)
  {
    forall n | 0 <= n <= |events|
      ensures |Executing(events[..n])| <= 1
    {
      OnlyThisCall(events, id, n);
      AtMostOne(Executing(events[..n]), id);
    }
  }

  lemma AtMostOne(ids: set<string>, id: string)
    requires ids <= {id}
    ensures |ids| <= 1
  {
    if id in ids {
      assert ids == {id};
    } else {
      assert ids == {};
    }
  }

  // With one slot the log is that slot's trace.
  lemma {:induction false} SeenAlone(log: seq<Tagged>)
    requires forall k :: 0 <= k < |log| ==> log[k].slot == 0
    ensures Events(log) == Seen(log, 0)
  {
    if log != [] {
      var front := log[..|log| - 1];
      SeenAlone(front);
      assert Events(log) == Events(front) + [log[|log| - 1].event];
    }
  }

  lemma {:induction false} TagsAreSeen(log: seq<Tagged>, k: nat)
    requires k < |log|
    ensures log[k].event in Seen(log, log[k].slot)
  {
    if k < |log| - 1 {
      TagsAreSeen(log[..|log| - 1], k);
    }
  }

  lemma LoneTrace(m: Machine)
    requires Bracketed(m) && |m.slots| == 1
    ensures Events(m.log) == SlotTrace(m.slots[0])
  {
    forall k | 0 <= k < |m.log|
      ensures m.log[k].slot == 0
    {
      TagsAreSeen(m.log, k);
    }
    SeenAlone(m.log);
  }

  // The calls taken so far, none of them after a cancellation was seen.
  ghost predicate Taken(polls: nat -> Polls, n: nat, cancelled: bool) {
    && (forall i :: 0 <= i < n - 1 ==> !polls(i).afterCall)
    && cancelled == (n > 0 && polls(n - 1).afterCall)
  }

  method Preflight(x: Executor, calls: seq<ToolCall>, polls: nat -> Polls) returns (m: Machine)
    ensures Sound(x, calls, polls, m)
    ensures IsReach(polls, |calls|, |m.slots|)
  {
    m := Machine([], []);
    EmptyIsSound(x, calls, polls);
    var cancelled := false;
    while |m.slots| < |calls| && !cancelled
      invariant Sound(x, calls, polls, m)
      invariant |m.slots| <= |calls| && Taken(polls, |m.slots|, cancelled)
      decreases |calls| - |m.slots|
    {
      cancelled := polls(|m.slots|).afterCall;
      m := StartCall(x, calls, polls, m);
    }
  }

  method StartCall(x: Executor, calls: seq<ToolCall>, polls: nat -> Polls, before: Machine) returns (m: Machine)
    requires Sound(x, calls, polls, before) && |before.slots| < |calls|
    ensures Sound(x, calls, polls, m) && |m.slots| == |before.slots| + 1
  {
    var n := |before.slots|;
    var slot := Fresh(calls[n], x.prepare(calls[n], polls(n)));
    AddSlotKeepsBrackets(before, slot);
    AddSlotKeepsPending(before, slot);
    assert SlotOk(x, calls[n], polls(n), slot);
    m := AddSlot(before, slot);
  }

  method CollectResults(finals: seq<Finalized>, before: seq<AgentEvent>)
    returns (results: seq<ToolResultMessage>, events: seq<AgentEvent>)
    requires AddResults(before, [])
    ensures results == Results(finals)
    ensures AddResults(events, results) && events == before + ReportsOf(results)
  {
    results, events := [], before;
    for i := 0 to |finals|
      invariant results == Results(finals[..i]) && events == before + ReportsOf(results)
      invariant AddResults(events, results)
    {
      var r := ResultMessage(finals[i]);
      ReportOne(before, events, results, r);
      assert finals[..i + 1] == finals[..i] + [finals[i]];
      results, events := results + [r], events + ResultEvents(r);
    }
    assert finals[..|finals|] == finals;
  }

  lemma ReportOne(before: seq<AgentEvent>, events: seq<AgentEvent>, results: seq<ToolResultMessage>, r: ToolResultMessage)
    requires AddResults(events, results) && events == before + ReportsOf(results)
    ensures AddResults(events + ResultEvents(r), results + [r])
    ensures events + ResultEvents(r) == before + ReportsOf(results + [r])
  {
    OneResult(r);
    AddResultsInTurn(events, results, ResultEvents(r), [r]);
    assert (results + [r])[..|results|] == results;
  }

  // `execute_sequential`: one call at a time, each with its own schedule of updates.
  method ExecuteSequential(x: Executor, calls: seq<ToolCall>, polls: nat -> Polls, schedules: nat -> seq<Step>)
    returns (batch: Batch, events: seq<AgentEvent>)
    ensures IsBatch(x, calls, polls, batch)
    ensures AddResults(events, batch.results)
    ensures OneAtATime(events)
  {
    var finals: seq<Finalized>, results: seq<ToolResultMessage> := [], [];
    events := [];
    NothingAddsNothing();
    var cancelled := false;
    while |finals| < |calls| && !cancelled
      invariant |finals| <= |calls|
      invariant finals == Finals(x, calls, polls, |finals|) && results == Results(finals)
      invariant AddResults(events, results) && OneAtATime(events) && Executing(events) == {}
      invariant Taken(polls, |finals|, cancelled)
      decreases |calls| - |finals|
    {
      var n := |finals|;
      var final;
      final, results, events := ExecuteNext(x, calls[n], polls(n), schedules(n), results, events);
      finals, cancelled := finals + [final], polls(n).afterCall;
    }
    TakenIsBatch(x, calls, polls, finals, cancelled);
    batch := Batch(results, ShouldTerminate(finals));
  }

  lemma TakenIsBatch(x: Executor, calls: seq<ToolCall>, polls: nat -> Polls, finals: seq<Finalized>, cancelled: bool)
    requires |finals| <= |calls| && finals == Finals(x, calls, polls, |finals|) && Taken(polls, |finals|, cancelled)
    requires |finals| == |calls| || cancelled
    ensures IsBatch(x, calls, polls, Batch(Results(finals), ShouldTerminate(finals)))
  {
  }

  method ExecuteNext(x: Executor, call: ToolCall, polls: Polls, schedule: seq<Step>, resultsBefore: seq<ToolResultMessage>, eventsBefore: seq<AgentEvent>)
    returns (final: Finalized, results: seq<ToolResultMessage>, events: seq<AgentEvent>)
    requires AddResults(eventsBefore, resultsBefore) && OneAtATime(eventsBefore) && Executing(eventsBefore) == {}
    ensures final == Finalize(x, call, polls) && results == resultsBefore + [ResultMessage(final)]
    ensures AddResults(events, results) && OneAtATime(events) && Executing(events) == {}
  {
    var ran;
    final, ran := ExecuteOne(x, call, polls, schedule);
    AddResultsInTurn(eventsBefore, resultsBefore, ran, [ResultMessage(final)]);
    OneAfterTheOther(eventsBefore, ran);
    results, events := resultsBefore + [ResultMessage(final)], eventsBefore + ran;
  }

  lemma NothingAddsNothing()
    ensures AddResults([], []) && Executing([]) == {} && OneAtATime([])
  {
    ToolEventsAddNothing([]);
  }

  method ExecuteOne(x: Executor, call: ToolCall, polls: Polls, schedule: seq<Step>)
    returns (final: Finalized, events: seq<AgentEvent>)
    ensures final == Finalize(x, call, polls)
    ensures AddResults(events, [ResultMessage(final)])
    ensures OneAtATime(events) && Executing(events) == {}
  {
    var m := Machine([], []);
    ghost var always: nat -> Polls := _ => polls;
    EmptyIsSound(x, [call], always);
    m := StartCall(x, [call], _ => polls, m);
    m := RunSchedule(x, [call], always, m, schedule);
    DoneMeansDone(x, [call], always, m);
    final := FinalsOf(m)[0];
    ToolEventsAddNothing(Events(m.log));
    OneResult(ResultMessage(final));
    AddResultsInTurn(Events(m.log), [], ResultEvents(ResultMessage(final)), [ResultMessage(final)]);
    events := Events(m.log) + ResultEvents(ResultMessage(final));
    assert [] + [ResultMessage(final)] == [ResultMessage(final)];
    LoneTrace(m);
    OneCallOneAtATime(events, call.id);
    ExecutingAppend(Events(m.log), ResultEvents(ResultMessage(final)));
    ReportsExecuteNothing(ResultMessage(final));
  }

  // What the calls of a reply cut off by the output token limit are told.
  ghost function CutOff(calls: seq<ToolCall>): (rs: seq<ToolResultMessage>)
    ensures |rs| == |calls|
    ensures forall i :: 0 <= i < |calls| ==> rs[i].callId == calls[i].id && rs[i].isError
  {
    seq(|calls|, i requires 0 <= i < |calls| =>
      ToolResultMessage(calls[i].id, calls[i].name, [UserText(CutOffText(calls[i].name))], true))
  }

  function CutOffText(name: string): string {
    "Tool call \"" + name + "\" was not executed: the response hit the output token limit, "
    + "so its arguments may be truncated. Re-issue the tool call with complete arguments."
  }

  lemma ReportsExecuteNothing(r: ToolResultMessage)
    ensures Executing(ResultEvents(r)) == {}
  {
    var events := ResultEvents(r);
    assert events[..1] == [events[0]] && events[..1][..0] == [];
    assert Executing(events[..1]) == {};
  }

  // A reply cut off by the output token limit: none of its calls is executed.
  method FailTruncated(calls: seq<ToolCall>) returns (batch: Batch, events: seq<AgentEvent>)
    ensures batch.results == CutOff(calls) && !batch.terminate
    ensures AddResults(events, batch.results)
  {
    var results: seq<ToolResultMessage> := [];
    events := [];
    NothingAddsNothing();
    for n := 0 to |calls|
      invariant |results| == n && forall i :: 0 <= i < n ==> results[i] == CutOff(calls)[i]
      invariant AddResults(events, results)
    {
      var r, failed := FailOne(calls[n]);
      AddResultsInTurn(events, results, failed, [r]);
      results, events := results + [r], events + failed;
    }
    batch := Batch(results, false);
  }

  method FailOne(call: ToolCall) returns (r: ToolResultMessage, events: seq<AgentEvent>)
    ensures r == ToolResultMessage(call.id, call.name, [UserText(CutOffText(call.name))], true)
    ensures AddResults(events, [r])
  {
    r := ResultMessage(Rejected(call, CutOffText(call.name)));
    var bracket := [ToolExecutionStart(call.id), ToolExecutionEnd(call.id, true)];
    StartAndEndAddNothing(call.id);
    OneResult(r);
    AddResultsInTurn(bracket, [], ResultEvents(r), [r]);
    assert [] + [r] == [r];
    events := bracket + ResultEvents(r);
  }

  lemma StartAndEndAddNothing(id: string)
    ensures AddResults([ToolExecutionStart(id), ToolExecutionEnd(id, true)], [])
  {
    var events := [ToolExecutionStart(id), ToolExecutionEnd(id, true)];
    assert events[..1] == [events[0]] && events[..1][..0] == [];
    assert Executing(events[..1]) == {id};
    ToolEventsAddNothing(events);
  }

  // Some call asks for a tool that must not run beside others.
  ghost predicate Sequentially(box: Toolbox, calls: seq<ToolCall>) {
    box.sequential || exists i: nat, k: nat :: i < |calls| && ToolOutcomes.Names(box, calls[i], k) && box.tools[k].sequential
  }

  // `execute_tool_calls`: when configured so or when any called tool asks for it, one call
  // after the other; otherwise side by side, and reported once all have ended.
  method ExecuteToolCalls(box: Toolbox, calls: seq<ToolCall>, polls: nat -> Polls, schedules: nat -> seq<Step>)
    returns (batch: Batch, events: seq<AgentEvent>)
    ensures IsBatch(ExecutorOf(box), calls, polls, batch)
    ensures AddResults(events, batch.results)
    ensures if Sequentially(box, calls) then OneAtATime(events) else ReportsLast(events, batch.results)
  {
    AskingIsSequential(box, calls);
    if box.sequential || exists i :: 0 <= i < |calls| && AsksForSequence(box.tools, calls[i]) {
      batch, events := ExecuteSequential(ExecutorOf(box), calls, polls, schedules);
    } else {
      batch, events := ExecuteParallel(ExecutorOf(box), calls, polls, schedules(0));
    }
  }

  predicate AsksForSequence(tools: seq<Tool>, call: ToolCall) {
    var tool := FindTool(tools, call.name);
    tool.Some? && tool.value.sequential
  }

  lemma AskingIsSequential(box: Toolbox, calls: seq<ToolCall>)
    ensures Sequentially(box, calls) <==> box.sequential || exists i :: 0 <= i < |calls| && AsksForSequence(box.tools, calls[i])
  {
    forall i | 0 <= i < |calls|
      ensures AsksForSequence(box.tools, calls[i]) <==> exists k: nat :: ToolOutcomes.Names(box, calls[i], k) && box.tools[k].sequential
    {
      ToolOutcomes.FoundIsFirst(box.tools, calls[i].name);
      if AsksForSequence(box.tools, calls[i]) {
        var tool := FindTool(box.tools, calls[i].name).value;
        var k: nat :| k < |box.tools| && box.tools[k] == tool && forall j :: 0 <= j < k ==> box.tools[j].name != calls[i].name;
        assert ToolOutcomes.Names(box, calls[i], k);
      }
      if k: nat :| ToolOutcomes.Names(box, calls[i], k) && box.tools[k].sequential {
        ToolOutcomes.NamesFound(box, calls[i], k);
      }
    }
  }
}
