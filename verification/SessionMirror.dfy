// The listener that mirrors a run into a session (grain-agent-harness/src/agent_harness.rs).
module SessionMirror {
  import opened Messages
  import opened AgentEvents
  import SessionTree

  // The listener's view of the session is the current branch; `Session.NextEntry` shows that
  // appending to a session appends to its branch. Ids come from outside.
  class Mirror {
    var branch: seq<SessionTree.Entry>
    const newId: nat -> string

    // What `build_context` gives for the current branch.
    ghost function Transcript(): seq<AgentMessage>
      reads this
    {
      SessionTree.ContextMessages(branch)
    }

    constructor (branch: seq<SessionTree.Entry>, newId: nat -> string)
      ensures this.branch == branch
    {
      this.branch, this.newId := branch, newId;
    }

    // Every ended message is appended, and nothing else.
    method OnEvent(e: AgentEvent)
      modifies this
      ensures Transcript() == old(Transcript()) + EndedBy(e)
    {
      if e.MessageEnd? {
        var parent := if branch == [] then None else Some(branch[|branch| - 1].id);
        var entry := SessionTree.Entry(newId(|branch|), parent, SessionTree.MessageEntry(e.ended));
        SessionTree.AppendExtendsContext(branch, entry);
        branch := branch + [entry];
      }
    }
  }

  function EndedUpTo(events: seq<AgentEvent>, n: nat): seq<AgentMessage>
    requires n <= |events|
  {
    if n == 0 then [] else EndedUpTo(events, n - 1) + EndedBy(events[n - 1])
  }

  // The monitor collects the same messages.
  lemma {:induction false} MonitorCollects(m: Monitor, events: seq<AgentEvent>, n: nat)
    requires n <= |events|
    ensures Watch(m, events, n).ended == m.ended + EndedUpTo(events, n)
  {
    if n > 0 {
      MonitorCollects(m, events, n - 1);
    }
  }

  // The listener never acts back on the run, so it may be given the run's events afterwards.
  method MirrorEvents(mirror: Mirror, events: seq<AgentEvent>)
    modifies mirror
    ensures mirror.Transcript() == old(mirror.Transcript()) + After(Initial, events).ended
  {
    MirrorAll(mirror, events);
    MonitorCollects(Initial, events, |events|);
  }

  method MirrorAll(mirror: Mirror, events: seq<AgentEvent>)
    modifies mirror
    ensures mirror.Transcript() == old(mirror.Transcript()) + EndedUpTo(events, |events|)
  {
    ghost var before := mirror.Transcript();
    for i := 0 to |events|
      invariant mirror.Transcript() == before + EndedUpTo(events, i)
    {
      MirrorOne(mirror, events, i, before);
    }
  }

  method MirrorOne(mirror: Mirror, events: seq<AgentEvent>, i: nat, ghost before: seq<AgentMessage>)
    requires i < |events| && mirror.Transcript() == before + EndedUpTo(events, i)
    modifies mirror
    ensures mirror.Transcript() == before + EndedUpTo(events, i + 1)
  {
    mirror.OnEvent(events[i]);
  }
}
