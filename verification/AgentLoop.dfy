// The agent loop (grain-agent-core/src/agent_loop.rs): turns, tool batches, steering and
// follow-up messages, until the model is done, a turn fails or a hook stops the run.
module AgentLoop {
  import opened Messages
  import opened AgentEvents
  import opened MessageQueues
  import opened AgentState
  import opened Streaming
  import opened Turns
  import ToolBatch
  import ToolSchedule

  // Where a message of a run came from.
  datatype Origin = Prompted | Steered | FollowedUp | Produced

  // The messages from one origin among the first n, in order.
  ghost function Select(ms: seq<AgentMessage>, origins: seq<Origin>, o: Origin, n: nat): seq<AgentMessage>
    requires n <= |ms| == |origins|
  {
    if n == 0 then [] else Select(ms, origins, o, n - 1) + if origins[n - 1] == o then [ms[n - 1]] else []
  }

  ghost function From(ms: seq<AgentMessage>, origins: seq<Origin>, o: Origin): seq<AgentMessage>
    requires |ms| == |origins|
  {
    Select(ms, origins, o, |ms|)
  }

  lemma {:induction false} SelectSame(ms: seq<AgentMessage>, origins: seq<Origin>, m: AgentMessage, from: Origin, o: Origin, n: nat)
    requires n <= |ms| == |origins|
    ensures Select(ms + [m], origins + [from], o, n) == Select(ms, origins, o, n)
  {
    if n > 0 {
      SelectSame(ms, origins, m, from, o, n - 1);
    }
  }

  lemma SelectNext(ms: seq<AgentMessage>, origins: seq<Origin>, m: AgentMessage, from: Origin, o: Origin)
    requires |ms| == |origins|
    ensures From(ms + [m], origins + [from], o) == From(ms, origins, o) + if from == o then [m] else []
  {
    SelectSame(ms, origins, m, from, o, |ms|);
  }

  // What the loop holds: the context it sends, the messages of this run, and those to be
  // injected at the start of the next turn.
  datatype LoopState = LoopState(context: seq<AgentMessage>, newMessages: seq<AgentMessage>, pending: seq<AgentMessage>)

  // Beside it, for each new message where it came from, where the pending ones came from,
  // how many stale partial replies the context holds, and whether a hook has put other
  // messages in its place.
  datatype Book = Book(origins: seq<Origin>, from: Origin, stale: nat, replaced: bool)

  // A hook may hand back a context; one that only ever hands back the messages it was given
  // leaves them alone, even if it always hands one back.
  ghost predicate LeavesMessages(hook: seq<AgentMessage> -> Option<seq<AgentMessage>>) {
    forall ms: seq<AgentMessage> {:trigger hook(ms)} :: hook(ms).Some? ==> hook(ms).value == ms
  }

  // The hook the harness installs around the caller's: it overlays a freshly rendered system
  // prompt, so it always returns a context.
  function HarnessHook(caller: seq<AgentMessage> -> Option<seq<AgentMessage>>): seq<AgentMessage> -> Option<seq<AgentMessage>> {
    ms => Some(if caller(ms).Some? then caller(ms).value else ms)
  }

  lemma HarnessHookLeavesMessagesIff(caller: seq<AgentMessage> -> Option<seq<AgentMessage>>)
    ensures LeavesMessages(HarnessHook(caller)) <==> LeavesMessages(caller)
    ensures forall ms :: HarnessHook(caller)(ms).Some? && (caller(ms).Some? ==> HarnessHook(caller)(ms) == caller(ms))
  {
    var hook := HarnessHook(caller);
    if LeavesMessages(hook) {
      forall ms: seq<AgentMessage> | caller(ms).Some?
        ensures caller(ms).value == ms
      {
        assert hook(ms).Some?;
      }
    }
  }

  // Whether the messages may be other ones after this turn.
  ghost predicate Replaces(model: Model, turn: Turn) {
    !Failed(FinalMessage(model, turn.response)) && !LeavesMessages(turn.hook)
  }

  // What each queue has delivered.
  datatype Deliveries = Deliveries(steering: seq<AgentMessage>, followUp: seq<AgentMessage>)

  ghost function DeliveredBy(agent: Agent): Deliveries
    reads agent.steering, agent.followUp
  {
    Deliveries(DeliveredOf(agent.steering.fates), DeliveredOf(agent.followUp.fates))
  }

  // The messages received from one origin: new, or about to be injected.
  ghost function Received(st: LoopState, book: Book, o: Origin): seq<AgentMessage>
    requires |st.newMessages| == |book.origins|
  {
    From(st.newMessages, book.origins, o) + if book.from == o then st.pending else []
  }

  // What each queue delivered since d0 is in the new messages, in order, or about to be
  // injected.
  ghost predicate Accounted(st: LoopState, book: Book, d0: Deliveries, d: Deliveries) {
    && |book.origins| == |st.newMessages|
    && d.steering == d0.steering + Received(st, book, Steered)
    && d.followUp == d0.followUp + Received(st, book, FollowedUp)
    && (st.pending != [] ==> book.from.Steered? || book.from.FollowedUp?)
  }

  // The new messages are those the run has ended, and the loop's context is longer than the
  // transcript with them by exactly the stale partial replies.
  ghost predicate Copies(st: LoopState, book: Book, now: Monitor, base: seq<AgentMessage>) {
    && st.newMessages == now.ended
    && (now.phase.Broken? <==> book.stale > 0)
    && (!book.replaced ==> |st.context| == |base| + |st.newMessages| + book.stale)
    && (!book.replaced && book.stale == 0 ==> st.context == base + st.newMessages)
  }

  ghost predicate Sync(agent: Agent, st: LoopState, book: Book, d0: Deliveries)
    reads agent.Repr()
  {
    agent.InRun() && Copies(st, book, agent.now, agent.base) && Accounted(st, book, d0, DeliveredBy(agent))
  }

  function Inject(st: LoopState): LoopState
    requires st.pending != []
  {
    LoopState(st.context + [st.pending[0]], st.newMessages + [st.pending[0]], st.pending[1..])
  }

  lemma InjectMoves(st: LoopState)
    requires st.pending != []
    ensures Inject(st).newMessages + Inject(st).pending == st.newMessages + st.pending
    ensures Inject(st).context + Inject(st).pending == st.context + st.pending
  {
    assert st.pending == [st.pending[0]] + st.pending[1..];
  }

  lemma InjectKeepsAccounted(st: LoopState, book: Book, d0: Deliveries, d: Deliveries)
    requires Accounted(st, book, d0, d) && st.pending != []
    ensures Accounted(Inject(st), book.(origins := book.origins + [book.from]), d0, d)
  {
    SelectNext(st.newMessages, book.origins, st.pending[0], book.from, Steered);
    SelectNext(st.newMessages, book.origins, st.pending[0], book.from, FollowedUp);
    assert st.pending == [st.pending[0]] + st.pending[1..];
  }

  function Only(from: Origin, n: nat): (origins: seq<Origin>) {
    seq(n, _ => from)
  }

  lemma {:induction false} SelectOthers(ms: seq<AgentMessage>, origins: seq<Origin>, more: seq<AgentMessage>, from: Origin, o: Origin)
    requires |ms| == |origins| && from != o
    ensures From(ms + more, origins + Only(from, |more|), o) == From(ms, origins, o)
    decreases |more|
  {
    if more == [] {
      assert ms + more == ms && origins + Only(from, 0) == origins;
    } else {
      var n := |more| - 1;
      SelectOthers(ms, origins, more[..n], from, o);
      SelectNext(ms + more[..n], origins + Only(from, n), more[n], from, o);
      assert ms + more == ms + more[..n] + [more[n]];
      assert origins + Only(from, |more|) == origins + Only(from, n) + [from];
    }
  }

  // A prompt or an injected message starts and ends at once.
  lemma Injected(m: Monitor, msg: AgentMessage)
    requires AtRest(m)
    ensures
      var after := Next(Next(m, MessageStart(msg)), MessageEnd(msg));
      && AtRest(after) && after.ended == m.ended + [msg] && after.replies == m.replies
      && (after.phase.Broken? <==> m.phase.Broken?)
  {
  }

  method EmitMessage(agent: Agent, m: AgentMessage)
    requires agent.InRun() && AtRest(agent.now)
    modifies agent
    ensures agent.InRun() && AtRest(agent.now) && agent.base == old(agent.base)
    ensures agent.now.ended == old(agent.now.ended) + [m] && agent.now.replies == old(agent.now.replies)
    ensures agent.now.phase.Broken? <==> old(agent.now.phase.Broken?)
  {
    Injected(agent.now, m);
    agent.Emit(MessageStart(m));
    agent.Emit(MessageEnd(m));
  }

  // Between two turns, or broken.
  ghost predicate BetweenTurns(m: Monitor) {
    && m.pending == {}
    && (m.phase.Broken? || (m.phase.Between? && (m.phase.last.Some? ==> !Failed(m.phase.last.value))))
  }

  lemma TurnStarts(m: Monitor)
    requires BetweenTurns(m)
    ensures AtRest(Next(m, TurnStart))
    ensures Next(m, TurnStart).ended == m.ended && Next(m, TurnStart).replies == m.replies
    ensures Next(m, TurnStart).phase.Broken? <==> m.phase.Broken?
  {
  }

  // The turn's own reply and results end it.
  ghost predicate MayEnd(m: Monitor, a: AssistantMessage, rs: seq<ToolResultMessage>) {
    m.pending == {} && (m.phase.Broken? || MayEndTurn(m, a, rs))
  }

  lemma TurnEnds(m: Monitor, a: AssistantMessage, rs: seq<ToolResultMessage>)
    requires MayEnd(m, a, rs)
    ensures var after := Next(m, TurnEnd(a, rs));
      && after.pending == {} && after.ended == m.ended && after.replies == m.replies + [a]
      && (after.phase.Broken? <==> m.phase.Broken?)
      && (!after.phase.Broken? ==> after.phase.Between? && after.phase.last == Some(a))
  {
  }

  ghost predicate RunOver(m: Monitor) {
    m.pending == {} && (m.phase.Over? || m.phase.Broken?)
  }

  lemma RunEnds(m: Monitor)
    requires m.pending == {} && (m.phase.Broken? || (m.phase.Between? && m.replies != []))
    ensures var after := Next(m, AgentEnd(m.ended));
      && RunOver(after) && after.ended == m.ended && after.replies == m.replies
      && (after.phase.Broken? <==> m.phase.Broken?)
  {
  }

  lemma InjectKeepsCopies(st: LoopState, book: Book, now: Monitor, after: Monitor, base: seq<AgentMessage>)
    requires Copies(st, book, now, base) && st.pending != []
    requires after.ended == now.ended + [st.pending[0]] && (after.phase.Broken? <==> now.phase.Broken?)
    ensures Copies(Inject(st), book.(origins := book.origins + [book.from]), after, base)
  {
    assert base + st.newMessages + [st.pending[0]] == base + (st.newMessages + [st.pending[0]]);
  }

  // Emits, records and adds to the context the pending messages one by one.
  method InjectPending(agent: Agent, before: LoopState, ghost was: Book, ghost d0: Deliveries)
    returns (st: LoopState, ghost book: Book)
    requires Sync(agent, before, was, d0) && AtRest(agent.now)
    modifies agent
    ensures Sync(agent, st, book, d0) && AtRest(agent.now) && st.pending == []
    ensures st.newMessages == before.newMessages + before.pending && st.context == before.context + before.pending
    ensures book.stale == was.stale && book.replaced == was.replaced
    ensures agent.base == old(agent.base) && agent.now.replies == old(agent.now.replies)
  {
    st, book := before, was;
    while st.pending != []
      invariant Sync(agent, st, book, d0) && AtRest(agent.now)
      invariant st.newMessages + st.pending == before.newMessages + before.pending
      invariant st.context + st.pending == before.context + before.pending
      invariant book.stale == was.stale && book.replaced == was.replaced
      invariant agent.base == old(agent.base) && agent.now.replies == old(agent.now.replies)
      decreases |st.pending|
    {
      st, book := InjectOne(agent, st, book, d0);
    }
  }

  method InjectOne(agent: Agent, before: LoopState, ghost was: Book, ghost d0: Deliveries)
    returns (st: LoopState, ghost book: Book)
    requires Sync(agent, before, was, d0) && AtRest(agent.now) && before.pending != []
    modifies agent
    ensures Sync(agent, st, book, d0) && AtRest(agent.now) && st == Inject(before)
    ensures st.newMessages + st.pending == before.newMessages + before.pending
    ensures st.context + st.pending == before.context + before.pending
    ensures book == was.(origins := was.origins + [was.from])
    ensures agent.base == old(agent.base) && agent.now.replies == old(agent.now.replies)
  {
    ghost var now := agent.now;
    InjectKeepsAccounted(before, was, d0, DeliveredBy(agent));
    EmitMessage(agent, before.pending[0]);
    InjectKeepsCopies(before, was, now, agent.now, agent.base);
    st, book := Inject(before), was.(origins := was.origins + [was.from]);
    InjectMoves(before);
  }

  // --- One turn ---

  lemma ProduceKeepsAccounted(st: LoopState, book: Book, d0: Deliveries, d: Deliveries, context: seq<AgentMessage>, more: seq<AgentMessage>, stale: nat)
    requires Accounted(st, book, d0, d)
    ensures Accounted(st.(context := context, newMessages := st.newMessages + more),
      book.(origins := book.origins + Only(Produced, |more|), stale := stale), d0, d)
  {
    SelectOthers(st.newMessages, book.origins, more, Produced, Steered);
    SelectOthers(st.newMessages, book.origins, more, Produced, FollowedUp);
  }

  lemma ReplyKeepsCopies(st: LoopState, book: Book, now: Monitor, base: seq<AgentMessage>, final: AssistantMessage, partials: seq<AssistantMessage>)
    requires Copies(st, book, now, base) && AtRest(now)
    ensures Copies(
      st.(context := st.context + Lift(partials) + [AssistantMsg(final)], newMessages := st.newMessages + [AssistantMsg(final)]),
      book.(origins := book.origins + Only(Produced, 1), stale := book.stale + |partials|),
      AfterReply(now, |partials|, final), base)
  {
    if !book.replaced && book.stale + |partials| == 0 {
      assert st.context + Lift(partials) + [AssistantMsg(final)] == base + (st.newMessages + [AssistantMsg(final)]);
    }
  }

  // Streams the reply and adds it to the new messages.
  method Reply(agent: Agent, model: Model, before: LoopState, response: Response, ghost was: Book, ghost d0: Deliveries)
    returns (st: LoopState, final: AssistantMessage, ghost book: Book)
    requires Sync(agent, before, was, d0) && AtRest(agent.now)
    modifies agent
    ensures Sync(agent, st, book, d0) && st.pending == before.pending
    ensures st.newMessages == before.newMessages + [AssistantMsg(final)]
    ensures st.context == before.context + Lift(Stale(response)) + [AssistantMsg(final)]
    ensures agent.now == AfterReply(old(agent.now), |Stale(response)|, final) && agent.base == old(agent.base)
    ensures final == FinalMessage(model, response)
    ensures book.stale == was.stale + |Stale(response)| && book.replaced == was.replaced
  {
    ReplyKeepsCopies(before, was, agent.now, agent.base, FinalMessage(model, response), Stale(response));
    var context;
    context, final := StreamAssistantResponse(agent, model, before.context, response);
    ghost var stale := was.stale + |Stale(response)|;
    ProduceKeepsAccounted(before, was, d0, DeliveredBy(agent), context, [AssistantMsg(final)], stale);
    st := before.(context := context, newMessages := before.newMessages + [AssistantMsg(final)]);
    book := was.(origins := was.origins + Only(Produced, 1), stale := stale);
  }

  // After the reply of a turn that goes on.
  ghost predicate HasReply(m: Monitor, a: AssistantMessage) {
    m.pending == {} && (m.phase.Broken? || (m.phase.InTurn? && m.phase.open.None? && m.phase.reply == Some(a) && m.phase.results == []))
  }

  lemma BatchMayEnd(m: Monitor, a: AssistantMessage, rs: seq<ToolResultMessage>)
    requires HasReply(m, a) && !Failed(a) && AnswerPrefix(Calls(a.content), rs)
    ensures ToolBatch.Replied(m) && MayEnd(ToolBatch.Added(m, rs), a, rs)
  {
    assert [] + rs == rs;
  }

  // Runs the calls of a reply; a reply cut off by the token limit has none of them run.
  method Batch(box: ToolBatch.Toolbox, final: AssistantMessage, turn: Turn)
    returns (results: seq<ToolResultMessage>, terminate: bool, events: seq<AgentEvent>)
    requires !Failed(final)
    ensures AnswerPrefix(Calls(final.content), results)
    ensures ToolBatch.AddResults(events, results)
    ensures IsAnswer(box, turn, final, Answer(results, !terminate))
  {
    var calls := Calls(final.content);
    var batch := ToolBatch.Batch([], true);
    events := [];
    if calls == [] {
      ToolSchedule.NothingAddsNothing();
    } else if final.stopReason.Length? {
      batch, events := ToolSchedule.FailTruncated(calls);
    } else {
      batch, events := ToolSchedule.ExecuteToolCalls(box, calls, turn.polls, turn.schedules);
      ToolBatch.BatchAnswersPrefix(ToolBatch.ExecutorOf(box), calls, turn.polls, batch);
    }
    results, terminate := batch.results, batch.terminate;
  }

  method RunCalls(agent: Agent, box: ToolBatch.Toolbox, before: LoopState, final: AssistantMessage, turn: Turn, ghost was: Book, ghost d0: Deliveries)
    returns (st: LoopState, results: seq<ToolResultMessage>, terminate: bool, ghost book: Book)
    requires Sync(agent, before, was, d0) && HasReply(agent.now, final) && !Failed(final)
    modifies agent
    ensures Sync(agent, st, book, d0) && MayEnd(agent.now, final, results)
    ensures agent.base == old(agent.base) && agent.now.replies == old(agent.now.replies)
    ensures AnswerPrefix(Calls(final.content), results) && IsAnswer(box, turn, final, Answer(results, !terminate))
    ensures st.pending == before.pending && st.newMessages == before.newMessages + ResultMsgs(results)
    ensures st.context == before.context + ResultMsgs(results)
    ensures book.stale == was.stale && book.replaced == was.replaced
  {
    var events;
    results, terminate, events := Batch(box, final, turn);
    BatchMayEnd(agent.now, final, results);
    ghost var now := agent.now;
    agent.EmitAll(events);
    assert agent.now == ToolBatch.Added(now, results);
    var more := ResultMsgs(results);
    ProduceKeepsAccounted(before, was, d0, DeliveredBy(agent), before.context + more, more, was.stale);
    CopiesGrow(before, was, now, agent.now, agent.base, more);
    st := before.(context := before.context + more, newMessages := before.newMessages + more);
    book := was.(origins := was.origins + Only(Produced, |more|));
  }

  lemma CopiesGrow(st: LoopState, book: Book, now: Monitor, after: Monitor, base: seq<AgentMessage>, more: seq<AgentMessage>)
    requires Copies(st, book, now, base)
    requires after.ended == now.ended + more && (after.phase.Broken? <==> now.phase.Broken?)
    ensures Copies(st.(context := st.context + more, newMessages := st.newMessages + more),
      book.(origins := book.origins + Only(Produced, |more|)), after, base)
  {
    assert base + st.newMessages + more == base + (st.newMessages + more);
  }

  method EndTurn(agent: Agent, st: LoopState, final: AssistantMessage, results: seq<ToolResultMessage>, ghost book: Book, ghost d0: Deliveries)
    requires Sync(agent, st, book, d0) && MayEnd(agent.now, final, results)
    modifies agent
    ensures Sync(agent, st, book, d0) && agent.base == old(agent.base)
    ensures TurnOver(agent.now, final) && agent.now.replies == old(agent.now.replies) + [final]
  {
    TurnEnds(agent.now, final, results);
    agent.Emit(TurnEnd(final, results));
  }

  ghost predicate TurnOver(m: Monitor, a: AssistantMessage) {
    m.pending == {} && (m.phase.Broken? || (m.phase.Between? && m.replies != [] && m.phase.last == Some(a)))
  }

  // The run is over, its last event reports its messages, and no call is left executing.
  ghost predicate Finished(agent: Agent, st: LoopState)
    reads agent
  {
    && RunOver(agent.now)
    && agent.trace != [] && agent.trace[|agent.trace| - 1] == AgentEnd(st.newMessages)
  }

  method EndRun(agent: Agent, st: LoopState, ghost final: AssistantMessage, ghost book: Book, ghost d0: Deliveries)
    requires Sync(agent, st, book, d0) && TurnOver(agent.now, final)
    modifies agent
    ensures Sync(agent, st, book, d0) && Finished(agent, st)
    ensures agent.base == old(agent.base) && agent.now.replies == old(agent.now.replies)
  {
    RunEnds(agent.now);
    agent.Emit(AgentEnd(st.newMessages));
  }

  lemma PollKeepsAccounted(st: LoopState, book: Book, d0: Deliveries, d: Deliveries, o: Origin, out: seq<AgentMessage>)
    requires Accounted(st, book, d0, d) && st.pending == []
    requires o.Steered? || o.FollowedUp?
    ensures Accounted(st.(pending := out), book.(from := o), d0,
      if o.Steered? then d.(steering := d.steering + out) else d.(followUp := d.followUp + out))
  {
  }

  method Poll(agent: Agent, before: LoopState, o: Origin, ops: seq<QueueOp>, ghost was: Book, ghost d0: Deliveries)
    returns (st: LoopState, ghost book: Book)
    requires Sync(agent, before, was, d0) && before.pending == []
    requires o.Steered? || o.FollowedUp?
    modifies agent.steering, agent.followUp
    ensures Sync(agent, st, book, d0)
    ensures st == before.(pending := st.pending) && book == was.(from := o)
    ensures var qs := OpsOn(old(agent.QueuesNow()), ops);
      && st.pending == Front(if o.Steered? then qs.steering else qs.followUp)
      && agent.QueuesNow() == if o.Steered? then qs.(steering := Rest(qs.steering)) else qs.(followUp := Rest(qs.followUp))
  {
    agent.Enact(ops);
    var out;
    ghost var d := DeliveredBy(agent);
    if o.Steered? {
      out := agent.steering.Drain();
    } else {
      out := agent.followUp.Drain();
    }
    PollKeepsAccounted(before, was, d0, d, o, out);
    st, book := before.(pending := out), was.(from := o);
  }

  datatype Verdict = More(calls: bool) | Ended

  // One turn: inject what is pending, stream the reply, run its calls, let the hooks act and
  // poll for steering. A failed reply ends the run before any of its calls is run.
  method RunTurn(agent: Agent, model: Model, box: ToolBatch.Toolbox, before: LoopState, turn: Turn, ghost was: Book, ghost d0: Deliveries)
    returns (st: LoopState, verdict: Verdict, ghost final: AssistantMessage, ghost r: Record, ghost book: Book)
    requires Sync(agent, before, was, d0) && AtRest(agent.now)
    modifies agent, agent.steering, agent.followUp
    ensures Sync(agent, st, book, d0) && agent.base == old(agent.base)
    ensures final == FinalMessage(model, turn.response) && agent.now.replies == old(agent.now.replies) + [final]
    ensures r.before == old(MomentOf(agent, before)) && IsAnswer(box, turn, final, r.answer)
    ensures st.newMessages == before.newMessages + Adds(r, model, turn)
    ensures if Failed(final) then r.answer.results == [] else AnswerPrefix(Calls(final.content), r.answer.results)
    ensures MomentOf(agent, st) == if Ends(model, turn) then WhereItEnds(r, model, turn) else AfterSteering(r, model, turn)
    ensures book.stale == was.stale + |Stale(turn.response)|
    ensures book.replaced ==> was.replaced || Replaces(model, turn)
    ensures verdict == if Ends(model, turn) then Ended else More(r.answer.calls)
    ensures verdict.Ended? ==> st.pending == [] && Finished(agent, st)
    ensures verdict.More? ==> TurnOver(agent.now, final)
  {
    ghost var now := MomentOf(agent, before);
    var reply;
    st, reply, book := AskForReply(agent, model, before, turn.response, was, d0);
    ghost var replied := st;
    final, r := reply, Record(now, Answer([], false));
    if Failed(reply) {
      EndTurn(agent, st, reply, [], book, d0);
      EndRun(agent, st, final, book, d0);
      verdict := Ended;
    } else {
      ghost var answer;
      st, verdict, answer, book := AnswerReply(agent, box, st, reply, turn, book, d0);
      r := Record(now, answer);
    }
    TurnAdds(before, replied, r, model, turn);
  }

  method AskForReply(agent: Agent, model: Model, before: LoopState, response: Response, ghost was: Book, ghost d0: Deliveries)
    returns (st: LoopState, final: AssistantMessage, ghost book: Book)
    requires Sync(agent, before, was, d0) && AtRest(agent.now)
    modifies agent
    ensures Sync(agent, st, book, d0) && st.pending == [] && final == FinalMessage(model, response)
    ensures Asked(before, st, final, response)
    ensures HasReply(agent.now, final) && agent.base == old(agent.base) && agent.now.replies == old(agent.now.replies)
    ensures book.stale == was.stale + |Stale(response)| && book.replaced == was.replaced
  {
    st, book := InjectPending(agent, before, was, d0);
    st, final, book := Reply(agent, model, st, response, book, d0);
  }

  // What was pending and the reply have been added, and what the stream left behind.
  ghost predicate Asked(before: LoopState, st: LoopState, final: AssistantMessage, response: Response) {
    && st.newMessages == before.newMessages + before.pending + [AssistantMsg(final)]
    && st.context == before.context + before.pending + Lift(Stale(response)) + [AssistantMsg(final)]
  }

  lemma TurnAdds(before: LoopState, st: LoopState, r: Record, model: Model, turn: Turn)
    requires Asked(before, st, FinalMessage(model, turn.response), turn.response)
    requires r.before.pending == before.pending && r.before.context == before.context
    ensures st.newMessages + ResultMsgs(r.answer.results) == before.newMessages + Adds(r, model, turn)
    ensures st.context + ResultMsgs(r.answer.results) == ContextWith(r, model, turn)
    ensures r.answer.results == [] ==> st.newMessages == before.newMessages + Adds(r, model, turn) && st.context == ContextWith(r, model, turn)
  {
  }

  ghost function MomentOf(agent: Agent, st: LoopState): Moment
    reads agent.steering, agent.followUp
  {
    Moment(agent.QueuesNow(), st.pending, st.context)
  }

  method AnswerReply(agent: Agent, box: ToolBatch.Toolbox, before: LoopState, final: AssistantMessage, turn: Turn, ghost was: Book, ghost d0: Deliveries)
    returns (st: LoopState, verdict: Verdict, ghost answer: Answer, ghost book: Book)
    requires Sync(agent, before, was, d0) && HasReply(agent.now, final) && !Failed(final) && before.pending == []
    modifies agent, agent.steering, agent.followUp
    ensures Sync(agent, st, book, d0) && agent.base == old(agent.base)
    ensures IsAnswer(box, turn, final, answer)
    ensures st.newMessages == before.newMessages + ResultMsgs(answer.results)
    ensures var qs := OpsOn(old(agent.QueuesNow()), turn.beforeSteering);
      MomentOf(agent, st) == if turn.stop
        then Moment(old(agent.QueuesNow()), [], Hooked(turn.hook, before.context + ResultMsgs(answer.results)))
        else Moment(qs.(steering := Rest(qs.steering)), Front(qs.steering), Hooked(turn.hook, before.context + ResultMsgs(answer.results)))
    ensures AnswerPrefix(Calls(final.content), answer.results) && agent.now.replies == old(agent.now.replies) + [final]
    ensures book.stale == was.stale && (book.replaced ==> was.replaced || !LeavesMessages(turn.hook))
    ensures verdict == if turn.stop then Ended else More(answer.calls)
    ensures verdict.Ended? ==> st.pending == [] && Finished(agent, st)
    ensures verdict.More? ==> TurnOver(agent.now, final)
  {
    var answers, terminate;
    st, answers, terminate, book := RunCalls(agent, box, before, final, turn, was, d0);
    answer := Answer(answers, !terminate);
    EndTurn(agent, st, final, answers, book, d0);
    st, book := Replace(agent, st, turn.hook, book, d0);
    if turn.stop {
      EndRun(agent, st, final, book, d0);
      verdict := Ended;
    } else {
      st, book := Poll(agent, st, Steered, turn.beforeSteering, book, d0);
      verdict := More(!terminate);
    }
  }

  // What `prepare_next_turn` may put in the place of the context.
  method Replace(agent: Agent, before: LoopState, hook: seq<AgentMessage> -> Option<seq<AgentMessage>>, ghost was: Book, ghost d0: Deliveries)
    returns (st: LoopState, ghost book: Book)
    requires Sync(agent, before, was, d0)
    ensures Sync(agent, st, book, d0)
    ensures st == before.(context := Hooked(hook, before.context))
    ensures book == was.(replaced := was.replaced || st.context != before.context)
    ensures book.replaced ==> was.replaced || !LeavesMessages(hook)
  {
    st, book := before, was;
    var update := hook(before.context);
    if update.Some? {
      st, book := st.(context := update.value), book.(replaced := was.replaced || update.value != before.context);
    }
  }

  // --- The run ---

  datatype Tally = Tally(stale: nat, replaced: bool, replies: seq<AssistantMessage>)

  ghost function TallyTurn(tally: Tally, model: Model, turn: Turn): Tally {
    Tally(tally.stale + |Stale(turn.response)|, tally.replaced || Replaces(model, turn),
      tally.replies + [FinalMessage(model, turn.response)])
  }

  // Over the first n turns: partial replies left behind in the context, whether a hook may
  // have replaced its messages, and the replies.
  ghost function TallyOf(model: Model, script: seq<Turn>, n: nat): Tally {
    if n == 0 then Tally(0, false, []) else TallyTurn(TallyOf(model, script, n - 1), model, TurnAt(script, n - 1))
  }

  ghost predicate Matches(tally: Tally, book: Book, replies: seq<AssistantMessage>) {
    book.stale == tally.stale && (book.replaced ==> tally.replaced) && replies == tally.replies
  }

  // The run's events end n turns, with the replies of the first n turns of the script, and
  // what the run leaves is what these left.
  ghost predicate Tallied(book: Book, replies: seq<AssistantMessage>, model: Model, script: seq<Turn>, n: nat) {
    n > 0 && Matches(TallyOf(model, script, n), book, replies)
  }

  // A running tally, one turn at a time.
  ghost predicate TallyStep(tally: nat -> Tally, model: Model, script: seq<Turn>, k: nat) {
    tally(k + 1) == TallyTurn(tally(k), model, TurnAt(script, k))
  }

  ghost predicate IsTally(tally: nat -> Tally, model: Model, script: seq<Turn>) {
    tally(0) == Tally(0, false, []) && forall k: nat :: TallyStep(tally, model, script, k)
  }

  lemma TallyIsTally(model: Model, script: seq<Turn>)
    ensures IsTally((n: nat) => TallyOf(model, script, n), model, script)
  {
  }

  lemma {:induction false} TallyUnique(tally: nat -> Tally, model: Model, script: seq<Turn>, n: nat)
    requires IsTally(tally, model, script)
    ensures tally(n) == TallyOf(model, script, n)
  {
    if n > 0 {
      TallyUnique(tally, model, script, n - 1);
      assert TallyStep(tally, model, script, n - 1);
    }
  }

  // There are none exactly when no stream of those turns started twice.
  lemma {:induction false} TallyIff(model: Model, script: seq<Turn>, n: nat)
    ensures TallyOf(model, script, n).stale == 0 <==> forall i: nat :: i < n ==> Stale(TurnAt(script, i).response) == []
  {
    if n > 0 {
      TallyIff(model, script, n - 1);
    }
  }

  lemma {:induction false} TallyReplies(model: Model, script: seq<Turn>, n: nat)
    ensures TallyOf(model, script, n).replies == Replies(model, script, n)
  {
    if n > 0 {
      TallyReplies(model, script, n - 1);
      assert Replies(model, script, n) == Replies(model, script, n - 1) + [FinalMessage(model, TurnAt(script, n - 1).response)];
    }
  }

  // The replies to the requests of the first n turns.
  ghost function Replies(model: Model, script: seq<Turn>, n: nat): (replies: seq<AssistantMessage>) {
    seq(n, i requires 0 <= i < n => FinalMessage(model, TurnAt(script, i).response))
  }

  // Whether the loop stands before a turn: the first one has already been started.
  ghost predicate BeforeTurn(m: Monitor, first: bool) {
    if first then AtRest(m) else BetweenTurns(m) && m.replies != []
  }

  method StartTurn(agent: Agent, first: bool, ghost st: LoopState, ghost book: Book, ghost d0: Deliveries)
    requires Sync(agent, st, book, d0) && BeforeTurn(agent.now, first)
    modifies agent
    ensures Sync(agent, st, book, d0) && AtRest(agent.now)
    ensures agent.base == old(agent.base) && agent.now.replies == old(agent.now.replies)
  {
    if !first {
      TurnStarts(agent.now);
      agent.Emit(TurnStart);
    }
  }

  // The loop after k turns of a script.
  ghost predicate AfterTurns(agent: Agent, st: LoopState, tally: nat -> Tally, k: nat, book: Book, d0: Deliveries)
    reads agent.Repr()
  {
    Sync(agent, st, book, d0) && Matches(tally(k), book, agent.now.replies)
  }

  // The turns so far, from where the loop started and what it held then.
  ghost predicate HasRun(start: Moment, said: seq<AgentMessage>, history: seq<Record>, box: ToolBatch.Toolbox, model: Model, script: seq<Turn>,
    newMessages: seq<AgentMessage>)
  {
    AreTurns(start, history, box, model, script) && newMessages == said + Added(history, model, script)
  }

  lemma TurnTaken(start: Moment, said: seq<AgentMessage>, history: seq<Record>, box: ToolBatch.Toolbox, model: Model, script: seq<Turn>,
    before: seq<AgentMessage>, after: seq<AgentMessage>, r: Record)
    requires HasRun(start, said, history, box, model, script, before) && StandsBefore(start, history, model, script, r.before)
    requires var turn := TurnAt(script, |history|);
      IsAnswer(box, turn, FinalMessage(model, turn.response), r.answer) && after == before + Adds(r, model, turn)
    ensures HasRun(start, said, history + [r], box, model, script, after)
  {
    OneMoreTurn(start, history, box, model, script, r);
    OneMoreAdds(history, r, model, script);
    assert said + Added(history, model, script) + Adds(r, model, TurnAt(script, |history|))
        == said + (Added(history, model, script) + Adds(r, model, TurnAt(script, |history|)));
  }

  // Turn k did not end the run and left nothing to go back with.
  ghost predicate PausesAt(history: seq<Record>, model: Model, script: seq<Turn>, k: nat, now: Moment)
    requires k < |history|
  {
    var r, turn := history[k], TurnAt(script, k);
    !Ends(model, turn) && !r.answer.calls && now.pending == [] && now == AfterSteering(r, model, turn)
  }

  ghost predicate PausedAfter(history: seq<Record>, model: Model, script: seq<Turn>, now: Moment) {
    history != [] && forall k: nat :: k + 1 == |history| ==> PausesAt(history, model, script, k, now)
  }

  lemma FollowUpDecides(start: Moment, history: seq<Record>, box: ToolBatch.Toolbox, model: Model, script: seq<Turn>, paused: Moment, now: Moment)
    requires AreTurns(start, history, box, model, script) && PausedAfter(history, model, script, paused)
    requires now == AfterFollowUp(paused, TurnAt(script, |history| - 1))
    ensures if now.pending != [] then StandsBefore(start, history, model, script, now)
            else IsHistory(start, history, box, model, script, now)
  {
    assert PausesAt(history, model, script, |history| - 1, paused);
  }

  // Where a turn leaves the loop.
  lemma TurnLeads(start: Moment, so: seq<Record>, r: Record, box: ToolBatch.Toolbox, model: Model, script: seq<Turn>, now: Moment)
    requires AreTurns(start, so + [r], box, model, script)
    requires var turn := TurnAt(script, |so|);
      now == if Ends(model, turn) then WhereItEnds(r, model, turn) else AfterSteering(r, model, turn)
    ensures if Ends(model, TurnAt(script, |so|)) then IsHistory(start, so + [r], box, model, script, now)
      else if r.answer.calls || now.pending != [] then StandsBefore(start, so + [r], model, script, now)
      else PausedAfter(so + [r], model, script, now)
  {
  }

  // Where the loop starts: the steering queue is polled unless it was drained already.
  ghost function StartOf(qs: Queues, opening: seq<QueueOp>, skipInitialPoll: bool, context: seq<AgentMessage>): Moment {
    if skipInitialPoll then Moment(qs, [], context)
    else
      var now := OpsOn(qs, opening);
      Moment(now.(steering := Rest(now.steering)), Front(now.steering), context)
  }

  // Turns until there are no more calls to answer and nothing to inject; then follow-up
  // messages, until there are none.
  method RunLoop(agent: Agent, model: Model, box: ToolBatch.Toolbox, before: LoopState, script: seq<Turn>, skipInitialPoll: bool,
    opening: seq<QueueOp>, ghost was: Book, ghost d0: Deliveries)
    returns (st: LoopState, ghost book: Book, ghost history: seq<Record>)
    requires Sync(agent, before, was, d0) && AtRest(agent.now) && before.pending == []
    requires was.stale == 0 && !was.replaced && agent.now.replies == []
    modifies agent, agent.steering, agent.followUp
    ensures Sync(agent, st, book, d0) && agent.base == old(agent.base)
    ensures IsHistory(StartOf(old(agent.QueuesNow()), opening, skipInitialPoll, before.context), history, box, model, script, MomentOf(agent, st))
    ensures st.newMessages == before.newMessages + Added(history, model, script)
    ensures Tallied(book, agent.now.replies, model, script, |history|)
    ensures st.pending == [] && Finished(agent, st)
  {
    st, book, history := before, was, [];
    ghost var tally: nat -> Tally := (n: nat) => TallyOf(model, script, n);
    TallyIsTally(model, script);
    if !skipInitialPoll {
      st, book := Poll(agent, st, Steered, opening, book, d0);
    }
    ghost var start, said := MomentOf(agent, st), before.newMessages;
    var k, first, more, ended := 0, true, true, false;
    while more
      invariant AfterTurns(agent, st, tally, k, book, d0) && agent.base == old(agent.base)
      invariant k == |history| && HasRun(start, said, history, box, model, script, st.newMessages)
      invariant if more then StandsBefore(start, history, model, script, MomentOf(agent, st))
        else IsHistory(start, history, box, model, script, MomentOf(agent, st))
      invariant k <= |script| && BeforeTurn(agent.now, first) && (!more ==> !first && st.pending == [])
      decreases |script| - k, more
    {
      st, k, ended, book, history := RunTurns(agent, model, box, st, script, k, first, book, d0, tally, start, said, history);
      first := false;
      if ended {
        TallyUnique(tally, model, script, k);
        return;
      }
      st, book, more := FollowUpOrEnd(agent, model, box, st, script, k, book, d0, start, history);
    }
    TallyUnique(tally, model, script, k);
    EndLoop(agent, st, book, d0);
  }

  method PollFollowUp(agent: Agent, before: LoopState, turn: Turn, ghost was: Book, ghost d0: Deliveries)
    returns (st: LoopState, ghost book: Book)
    requires Sync(agent, before, was, d0) && before.pending == []
    modifies agent.steering, agent.followUp
    ensures Sync(agent, st, book, d0) && book == was.(from := FollowedUp)
    ensures st.newMessages == before.newMessages && MomentOf(agent, st) == AfterFollowUp(old(MomentOf(agent, before)), turn)
  {
    st, book := Poll(agent, before, FollowedUp, turn.beforeFollowUp, was, d0);
  }

  // The follow-up queue has the last word.
  method FollowUpOrEnd(agent: Agent, model: Model, box: ToolBatch.Toolbox, before: LoopState, script: seq<Turn>, k: nat, ghost was: Book, ghost d0: Deliveries,
    ghost start: Moment, ghost history: seq<Record>)
    returns (st: LoopState, ghost book: Book, more: bool)
    requires Sync(agent, before, was, d0) && k == |history| && AreTurns(start, history, box, model, script)
    requires PausedAfter(history, model, script, MomentOf(agent, before)) && before.pending == []
    modifies agent.steering, agent.followUp
    ensures Sync(agent, st, book, d0) && book == was.(from := FollowedUp)
    ensures st.newMessages == before.newMessages && (more <==> st.pending != [])
    ensures if more then StandsBefore(start, history, model, script, MomentOf(agent, st))
      else IsHistory(start, history, box, model, script, MomentOf(agent, st))
  {
    FollowUpDecides(start, history, box, model, script, MomentOf(agent, before), AfterFollowUp(MomentOf(agent, before), TurnAt(script, k - 1)));
    st, book := PollFollowUp(agent, before, TurnAt(script, k - 1), was, d0);
    more := st.pending != [];
  }

  method RunTurns(agent: Agent, model: Model, box: ToolBatch.Toolbox, before: LoopState, script: seq<Turn>, from: nat, isFirst: bool,
    ghost was: Book, ghost d0: Deliveries, ghost tally: nat -> Tally, ghost start: Moment, ghost said: seq<AgentMessage>, ghost so: seq<Record>)
    returns (st: LoopState, k: nat, ended: bool, ghost book: Book, ghost history: seq<Record>)
    requires IsTally(tally, model, script)
    requires AfterTurns(agent, before, tally, from, was, d0) && from <= |script| && BeforeTurn(agent.now, isFirst)
    requires from == |so| && HasRun(start, said, so, box, model, script, before.newMessages)
    requires StandsBefore(start, so, model, script, MomentOf(agent, before))
    modifies agent, agent.steering, agent.followUp
    ensures AfterTurns(agent, st, tally, k, book, d0) && agent.base == old(agent.base)
    ensures st.pending == [] && k == |history| > from && HasRun(start, said, history, box, model, script, st.newMessages)
    ensures if ended then Finished(agent, st) && IsHistory(start, history, box, model, script, MomentOf(agent, st))
      else k <= |script| && BeforeTurn(agent.now, false) && PausedAfter(history, model, script, MomentOf(agent, st))
  {
    st, book, k, ended, history := before, was, from, false, so;
    var calls, first := true, isFirst;
    while calls || st.pending != []
      invariant AfterTurns(agent, st, tally, k, book, d0) && agent.base == old(agent.base)
      invariant k == |history| && HasRun(start, said, history, box, model, script, st.newMessages)
      invariant if calls || st.pending != [] then StandsBefore(start, history, model, script, MomentOf(agent, st))
        else PausedAfter(history, model, script, MomentOf(agent, st))
      invariant BeforeTurn(agent.now, first)
      invariant from <= k <= |script| && (k == from ==> calls) && (k > from ==> !first)
      decreases |script| - k
    {
      st, ended, calls, book, history := NextTurn(agent, model, box, st, script, k, first, book, d0, tally, start, said, history);
      k, first := k + 1, false;
      if ended {
        return;
      }
    }
  }

  method EndLoop(agent: Agent, st: LoopState, ghost book: Book, ghost d0: Deliveries)
    requires Sync(agent, st, book, d0) && BeforeTurn(agent.now, false)
    modifies agent
    ensures Sync(agent, st, book, d0) && Finished(agent, st)
    ensures agent.base == old(agent.base) && agent.now.replies == old(agent.now.replies)
  {
    RunEnds(agent.now);
    agent.Emit(AgentEnd(st.newMessages));
  }

  method NextTurn(agent: Agent, model: Model, box: ToolBatch.Toolbox, before: LoopState, script: seq<Turn>, k: nat, first: bool,
    ghost was: Book, ghost d0: Deliveries, ghost tally: nat -> Tally, ghost start: Moment, ghost said: seq<AgentMessage>, ghost so: seq<Record>)
    returns (st: LoopState, ended: bool, calls: bool, ghost book: Book, ghost history: seq<Record>)
    requires IsTally(tally, model, script)
    requires AfterTurns(agent, before, tally, k, was, d0) && BeforeTurn(agent.now, first)
    requires k == |so| && HasRun(start, said, so, box, model, script, before.newMessages)
    requires StandsBefore(start, so, model, script, MomentOf(agent, before))
    modifies agent, agent.steering, agent.followUp
    ensures AfterTurns(agent, st, tally, k + 1, book, d0) && agent.base == old(agent.base)
    ensures |history| == k + 1 && HasRun(start, said, history, box, model, script, st.newMessages)
    ensures if ended then st.pending == [] && Finished(agent, st) else BeforeTurn(agent.now, false) && k < |script|
    ensures if ended then IsHistory(start, history, box, model, script, MomentOf(agent, st))
      else if calls || st.pending != [] then StandsBefore(start, history, model, script, MomentOf(agent, st))
      else PausedAfter(history, model, script, MomentOf(agent, st))
  {
    assert TallyStep(tally, model, script, k);
    StartTurn(agent, first, before, was, d0);
    ghost var final, r;
    var verdict;
    st, verdict, final, r, book := RunTurn(agent, model, box, before, TurnAt(script, k), was, d0);
    ended, calls := verdict.Ended?, verdict.More? && verdict.calls;
    TurnTaken(start, said, so, box, model, script, before.newMessages, st.newMessages, r);
    TurnLeads(start, so, r, box, model, script, MomentOf(agent, st));
    history := so + [r];
  }
}
