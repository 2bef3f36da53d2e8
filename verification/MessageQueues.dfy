// The steering and follow-up queues of an agent (grain-agent-core/src/agent.rs).
module MessageQueues {
  import opened Messages

  datatype QueueMode = All | OneAtATime

  // What a queue holds, and how it is drained.
  datatype Queue = Queue(messages: seq<AgentMessage>, mode: QueueMode)

  // What a drain delivers, and what it leaves.
  ghost function Front(q: Queue): (out: seq<AgentMessage>)
    ensures out <= q.messages
  {
    if q.mode.All? || q.messages == [] then q.messages else [q.messages[0]]
  }

  ghost function Rest(q: Queue): Queue {
    q.(messages := q.messages[|Front(q)|..])
  }

  // What became of a message that left a queue.
  datatype Fate = Delivered(message: AgentMessage) | Discarded(message: AgentMessage)

  function Left(fates: seq<Fate>): (ms: seq<AgentMessage>) {
    seq(|fates|, i requires 0 <= i < |fates| => fates[i].message)
  }

  function DeliveredOf(fates: seq<Fate>): seq<AgentMessage> {
    if fates == [] then []
    else
      var last := fates[|fates| - 1];
      DeliveredOf(fates[..|fates| - 1]) + if last.Delivered? then [last.message] else []
  }

  function Fated(ms: seq<AgentMessage>, delivered: bool): (fates: seq<Fate>) {
    seq(|ms|, i requires 0 <= i < |ms| => if delivered then Delivered(ms[i]) else Discarded(ms[i]))
  }

  lemma {:induction false} DeliveredAppend(fates: seq<Fate>, ms: seq<AgentMessage>, delivered: bool)
    ensures DeliveredOf(fates + Fated(ms, delivered)) == DeliveredOf(fates) + if delivered then ms else []
    decreases |ms|
  {
    if ms == [] {
      assert fates + Fated(ms, delivered) == fates;
    } else {
      var n := |ms| - 1;
      var all := fates + Fated(ms, delivered);
      assert all[..|all| - 1] == fates + Fated(ms[..n], delivered);
      DeliveredAppend(fates, ms[..n], delivered);
    }
  }

  lemma LeftAppend(a: seq<Fate>, b: seq<Fate>)
    ensures Left(a + b) == Left(a) + Left(b)
  {
  }

  class PendingMessageQueue {
    var messages: seq<AgentMessage>
    var mode: QueueMode
    // Every message ever enqueued, and what became of those that left.
    ghost var enqueued: seq<AgentMessage>
    ghost var fates: seq<Fate>

    // Each enqueued message is delivered, discarded or still queued, exactly once; the
    // queue is what is left of them, in the order they came.
    ghost predicate Valid()
      reads this
    {
      enqueued == Left(fates) + messages
    }

    ghost function Now(): Queue
      reads this
    {
      Queue(messages, mode)
    }

    constructor (mode: QueueMode)
      ensures Valid() && messages == [] && this.mode == mode && enqueued == [] && fates == []
    {
      messages, this.mode := [], mode;
      enqueued, fates := [], [];
    }

    method Enqueue(m: AgentMessage)
      requires Valid()
      modifies this
      ensures Valid()
      ensures messages == old(messages) + [m] && enqueued == old(enqueued) + [m]
      ensures fates == old(fates) && mode == old(mode)
    {
      messages, enqueued := messages + [m], enqueued + [m];
    }

    method SetMode(mode: QueueMode)
      modifies `mode
      ensures this.mode == mode
    {
      this.mode := mode;
    }

    // A drain delivers from the front: everything, or one message.
    method Drain() returns (out: seq<AgentMessage>)
      requires Valid()
      modifies this
      ensures Valid() && enqueued == old(enqueued) && mode == old(mode)
      ensures out + messages == old(messages)
      ensures out == [] <==> old(messages) == []
      ensures old(messages) != [] ==> if mode.All? then messages == [] else |out| == 1
      ensures DeliveredOf(fates) == DeliveredOf(old(fates)) + out
      ensures out == Front(old(Now())) && Now() == Rest(old(Now()))
    {
      if messages == [] {
        return [];
      }
      match mode {
        case All => out := messages;
        case OneAtATime => out := messages[..1];
      }
      messages := messages[|out|..];
      DeliveredAppend(fates, out, true);
      LeftAppend(fates, Fated(out, true));
      fates := fates + Fated(out, true);
    }

    // Clearing delivers nothing, whatever the mode, and says what it threw away.
    method TakeAll() returns (out: seq<AgentMessage>)
      requires Valid()
      modifies this
      ensures Valid() && enqueued == old(enqueued) && mode == old(mode)
      ensures out == old(messages) && messages == []
      ensures fates == old(fates) + Fated(out, false)
      ensures DeliveredOf(fates) == DeliveredOf(old(fates))
    {
      out := messages;
      messages := [];
      DeliveredAppend(fates, out, false);
      LeftAppend(fates, Fated(out, false));
      fates := fates + Fated(out, false);
    }
  }

  // Deliveries are a subsequence of what was enqueued, in that order: the kth delivered
  // message was enqueued at position At(fates, k), and those positions increase.
  function At(fates: seq<Fate>, k: nat): (i: nat)
    requires k < |DeliveredOf(fates)|
    ensures i < |fates| && fates[i].Delivered?
  {
    if fates[|fates| - 1].Delivered? && k == |DeliveredOf(fates)| - 1 then |fates| - 1 else At(fates[..|fates| - 1], k)
  }

  lemma {:induction false} DeliveredInOrder(fates: seq<Fate>, j: nat, k: nat)
    requires j < k < |DeliveredOf(fates)|
    ensures At(fates, j) < At(fates, k)
    ensures Left(fates)[At(fates, k)] == DeliveredOf(fates)[k]
    decreases |fates|
  {
    var front := fates[..|fates| - 1];
    if k < |DeliveredOf(front)| {
      DeliveredInOrder(front, j, k);
    }
  }
}
