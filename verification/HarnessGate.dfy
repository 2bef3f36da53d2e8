// The gate in front of session writes, run by run (grain-agent-harness/src/agent_harness.rs
// `prompt`, `continue_`, `compact` and the listener on the agent's events).
module HarnessGate {
  import SessionWrites

  // A run has reported once its `AgentEnd` was delivered; the agent stays active until it is
  // finished.
  datatype Run = NoRun | Active(reported: bool)

  datatype Kind = Prompt | Continue | Compact

  // The writes, whose `running` is the gate; the callers that have set it and are on their way
  // to the agent or compacting; the agent's run; and how many flushes are under way. A run may
  // be faster than its flushes here, so these are more runs than there are.
  datatype State = State(writes: SessionWrites.State, callers: map<nat, Kind>, run: Run, flushers: nat)

  const Empty := State(SessionWrites.Empty, map[], NoRun, 0)

  datatype Step =
    | Mark(caller: nat, kind: Kind) // the caller sets the gate
    | Begin(caller: nat)            // the agent starts its run,
    | Busy(caller: nat)             // refuses it because one is active,
    | Nothing(caller: nat)          // or refuses because there is nothing to continue from
    | Compacted(caller: nat)        // a compaction, failed or not, clears the gate and flushes
    | TurnEnds                      // the run's listener flushes
    | Reports                       // it clears the gate and flushes
    | Finishes                      // the agent is idle again
    | Flushed                       // a flush finds the queue empty
    | Write(step: SessionWrites.Step)

  predicate Asks(step: SessionWrites.Step) {
    !step.Start? && !step.Stop?
  }

  predicate Enabled(s: State, step: Step) {
    match step
    case Mark(c, _) => c !in s.callers
    case Begin(c) => c in s.callers && !s.callers[c].Compact? && s.run.NoRun?
    case Busy(c) => c in s.callers && !s.callers[c].Compact? && s.run.Active?
    case Nothing(c) => c in s.callers && s.callers[c].Continue? && s.run.NoRun?
    case Compacted(c) => c in s.callers && s.callers[c].Compact?
    case TurnEnds => s.run == Active(false)
    case Reports => s.run == Active(false)
    case Finishes => s.run == Active(true)
    case Flushed => s.writes.pending == [] && |s.writes.flying| < s.flushers
    case Write(w) =>
      && Asks(w) && SessionWrites.Enabled(s.writes, w)
      && (w.Take? ==> |s.writes.flying| < s.flushers)
      && (w.Apply? ==> s.flushers > 0)
  }

  function Next(s: State, step: Step): State
    requires Enabled(s, step)
  {
    match step
    case Mark(c, kind) => s.(writes := SessionWrites.Next(s.writes, SessionWrites.Start), callers := s.callers[c := kind])
    case Begin(c) => s.(callers := s.callers - {c}, run := Active(false))
    case Busy(c) => s.(callers := s.callers - {c})
    case Nothing(c) => s.(callers := s.callers - {c})
    case Compacted(c) =>
      s.(writes := SessionWrites.Next(s.writes, SessionWrites.Stop), callers := s.callers - {c}, flushers := s.flushers + 1)
    case TurnEnds => s.(flushers := s.flushers + 1)
    case Reports =>
      s.(writes := SessionWrites.Next(s.writes, SessionWrites.Stop), run := Active(true), flushers := s.flushers + 1)
    case Finishes => s.(run := NoRun)
    case Flushed => s.(flushers := s.flushers - 1)
    case Write(w) =>
      // A flush whose write failed gives up.
      s.(writes := SessionWrites.Next(s.writes, w), flushers := if w.Apply? && !w.ok then s.flushers - 1 else s.flushers)
  }

  predicate Clears(step: Step) { step.Compacted? || step.Reports? }

  ghost predicate IsStep(states: seq<State>, steps: seq<Step>, k: nat)
    requires k < |steps| && |states| == |steps| + 1
  {
    Enabled(states[k], steps[k]) && states[k + 1] == Next(states[k], steps[k])
  }

  ghost predicate IsRun(states: seq<State>, steps: seq<Step>) {
    && |states| == |steps| + 1
    && states[0] == Empty
    && forall k :: 0 <= k < |steps| ==> IsStep(states, steps, k)
  }

  // No caller is under way, the agent is idle and no flush is left to be done.
  ghost predicate Quiet(s: State) {
    s.callers == map[] && s.run.NoRun? && s.flushers == 0
  }

  // --- What the gate says ---

  // The gate was set at step i and has not been cleared since.
  ghost predicate SetAt(steps: seq<Step>, i: nat, n: nat)
    requires n <= |steps|
  {
    i < n && steps[i].Mark? && forall j :: i < j < n ==> !Clears(steps[j])
  }

  // It was cleared at step i and has not been set since.
  ghost predicate ClearedAt(steps: seq<Step>, i: nat, n: nat)
    requires n <= |steps|
  {
    i < n && Clears(steps[i]) && forall j :: i < j < n ==> !steps[j].Mark?
  }

  ghost predicate Gate(s: State) { s.writes.running }

  lemma StepGate(s: State, step: Step)
    requires Enabled(s, step)
    ensures Gate(Next(s, step)) <==> step.Mark? || (Gate(s) && !Clears(step))
  {
  }

  lemma {:induction false} SetSince(states: seq<State>, steps: seq<Step>, n: nat) returns (i: nat)
    requires IsRun(states, steps) && n <= |steps| && Gate(states[n])
    ensures SetAt(steps, i, n)
  {
    assert n > 0;
    assert IsStep(states, steps, n - 1);
    StepGate(states[n - 1], steps[n - 1]);
    if steps[n - 1].Mark? {
      i := n - 1;
    } else {
      i := SetSince(states, steps, n - 1);
    }
  }

  lemma {:induction false} StaysSet(states: seq<State>, steps: seq<Step>, i: nat, n: nat)
    requires IsRun(states, steps) && n <= |steps| && SetAt(steps, i, n)
    ensures Gate(states[n])
    decreases n
  {
    assert IsStep(states, steps, n - 1);
    StepGate(states[n - 1], steps[n - 1]);
    if i < n - 1 {
      StaysSet(states, steps, i, n - 1);
    }
  }

  // --- The stuck gate ---

  // At step j the agent turned away the caller that had set the gate at step i: it had nothing
  // to continue from, or another run, which had already reported, was not finished.
  ghost predicate TurnedAway(states: seq<State>, steps: seq<Step>, i: nat, j: nat)
    requires i < |steps| && j < |steps| < |states| && steps[i].Mark?
  {
    && i < j
    && (steps[j] == Nothing(steps[i].caller) || (steps[j] == Busy(steps[i].caller) && states[j].run == Active(true)))
  }

  // Who is behind a gate that is set: a caller under way, a run that will still report, or a
  // caller turned away.
  ghost predicate Behind(states: seq<State>, steps: seq<Step>, i: nat, n: nat)
    requires i < n <= |steps| < |states| && steps[i].Mark?
  {
    || steps[i].caller in states[n].callers
    || states[n].run == Active(false)
    || exists j :: i < j < n && TurnedAway(states, steps, i, j)
  }

  lemma StepBehind(s: State, step: Step, c: nat)
    requires Enabled(s, step) && !Clears(step) && (c in s.callers || s.run == Active(false))
    ensures var t := Next(s, step);
      c in t.callers || t.run == Active(false) || step == Nothing(c) || (step == Busy(c) && s.run == Active(true))
  {
  }

  lemma {:induction false} SomeoneBehind(states: seq<State>, steps: seq<Step>, i: nat, n: nat)
    requires IsRun(states, steps) && n <= |steps| && SetAt(steps, i, n)
    ensures Behind(states, steps, i, n)
    decreases n
  {
    assert IsStep(states, steps, n - 1);
    if i < n - 1 {
      SomeoneBehind(states, steps, i, n - 1);
      if steps[i].caller in states[n - 1].callers || states[n - 1].run == Active(false) {
        StepBehind(states[n - 1], steps[n - 1], steps[i].caller);
        assert steps[i].caller in states[n].callers || states[n].run == Active(false) || TurnedAway(states, steps, i, n - 1);
      }
    }
  }

  // When all is quiet the gate is still set, so that writes are queued with no flush to come,
  // exactly when a caller set it that was turned away, and nothing has cleared it since. One
  // turned away by a run that has yet to report is not among them.
  lemma StuckIff(states: seq<State>, steps: seq<Step>, n: nat)
    requires IsRun(states, steps) && n <= |steps| && Quiet(states[n])
    ensures Gate(states[n]) <==>
      exists i, j :: 0 <= i < j < n && SetAt(steps, i, n) && TurnedAway(states, steps, i, j)
  {
    if Gate(states[n]) {
      var i := SetSince(states, steps, n);
      SomeoneBehind(states, steps, i, n);
    } else {
      forall i | 0 <= i < n && SetAt(steps, i, n)
        ensures false
      {
        StaysSet(states, steps, i, n);
      }
    }
  }

  ghost predicate Reaches(steps: seq<Step>, s: State) {
    exists states :: IsRun(states, steps) && states[|steps|] == s
  }

  lemma GoesOn(steps: seq<Step>, s: State, step: Step, t: State) returns (all: seq<Step>)
    requires Reaches(steps, s) && Enabled(s, step) && t == Next(s, step)
    ensures Reaches(all, t) && all == steps + [step]
  {
    var states :| IsRun(states, steps) && states[|steps|] == s;
    all := steps + [step];
    var more := states + [t];
    forall k | 0 <= k < |all|
      ensures IsStep(more, all, k)
    {
      if k < |steps| {
        assert IsStep(states, steps, k);
      }
    }
    assert IsRun(more, all) && more[|all|] == t;
  }

  ghost predicate StuckOver(s: State) { Quiet(s) && Gate(s) && s.writes.pending != [] }

  const Open := SessionWrites.Empty
  const Set := Open.(running := true)
  const Ask := Write(SessionWrites.Ask)

  // Both happen: a `continue_` with nothing to continue from, and a caller between the report
  // of a run and its end. What is asked for then stays in the queue.
  lemma RefusedContinueSticks()
    ensures exists steps, s :: Reaches(steps, s) && StuckOver(s) && Nothing(0) in steps
  {
    assert IsRun([Empty], []);
    var a := GoesOn([], Empty, Mark(0, Continue), State(Set, map[0 := Continue], NoRun, 0));
    var b := GoesOn(a, State(Set, map[0 := Continue], NoRun, 0), Nothing(0), State(Set, map[], NoRun, 0));
    var stuck := Next(State(Set, map[], NoRun, 0), Ask);
    var c := GoesOn(b, State(Set, map[], NoRun, 0), Ask, stuck);
  }

  lemma LateCallerSticks()
    ensures exists steps, s :: Reaches(steps, s) && StuckOver(s) && Busy(1) in steps
  {
    assert IsRun([Empty], []);
    var a := GoesOn([], Empty, Mark(0, Prompt), State(Set, map[0 := Prompt], NoRun, 0));
    var b := GoesOn(a, State(Set, map[0 := Prompt], NoRun, 0), Begin(0), State(Set, map[], Active(false), 0));
    var c := GoesOn(b, State(Set, map[], Active(false), 0), Reports, State(Open, map[], Active(true), 1));
    var d := GoesOn(c, State(Open, map[], Active(true), 1), Flushed, State(Open, map[], Active(true), 0));
    var e := GoesOn(d, State(Open, map[], Active(true), 0), Mark(1, Prompt), State(Set, map[1 := Prompt], Active(true), 0));
    var f := GoesOn(e, State(Set, map[1 := Prompt], Active(true), 0), Busy(1), State(Set, map[], Active(true), 0));
    var g := GoesOn(f, State(Set, map[], Active(true), 0), Finishes, State(Set, map[], NoRun, 0));
    var stuck := Next(State(Set, map[], NoRun, 0), Ask);
    var h := GoesOn(g, State(Set, map[], NoRun, 0), Ask, stuck);
  }

  // --- The gate of a run ---

  // The run in flight began at step b.
  ghost predicate BeganAt(steps: seq<Step>, b: nat, n: nat)
    requires n <= |steps|
  {
    b < n && steps[b].Begin? && forall j :: b < j < n ==> !steps[j].Reports?
  }

  lemma StepBegan(s: State, step: Step)
    requires Enabled(s, step) && Next(s, step).run == Active(false)
    ensures step.Begin? || (s.run == Active(false) && !step.Reports?)
  {
  }

  lemma {:induction false} RunBegan(states: seq<State>, steps: seq<Step>, n: nat) returns (b: nat)
    requires IsRun(states, steps) && n <= |steps| && states[n].run == Active(false)
    ensures BeganAt(steps, b, n)
  {
    assert n > 0;
    assert IsStep(states, steps, n - 1);
    StepBegan(states[n - 1], steps[n - 1]);
    if steps[n - 1].Begin? {
      b := n - 1;
    } else {
      b := RunBegan(states, steps, n - 1);
    }
  }

  // Before anyone was there someone had to set the gate.
  lemma {:induction false} GateCleared(states: seq<State>, steps: seq<Step>, n: nat) returns (i: nat)
    requires IsRun(states, steps) && n <= |steps| && !Gate(states[n])
    requires states[n].callers != map[] || states[n].run.Active?
    ensures ClearedAt(steps, i, n)
  {
    assert n > 0;
    assert IsStep(states, steps, n - 1);
    StepGate(states[n - 1], steps[n - 1]);
    if Clears(steps[n - 1]) {
      i := n - 1;
    } else {
      i := GateCleared(states, steps, n - 1);
    }
  }

  lemma {:induction false} StaysCleared(states: seq<State>, steps: seq<Step>, i: nat, n: nat)
    requires IsRun(states, steps) && n <= |steps| && ClearedAt(steps, i, n)
    ensures !Gate(states[n])
    decreases n
  {
    assert IsStep(states, steps, n - 1);
    StepGate(states[n - 1], steps[n - 1]);
    if i < n - 1 {
      StaysCleared(states, steps, i, n - 1);
    }
  }

  // A run in flight has its gate open, so that writes land in the middle of its turns, exactly
  // when after the last time it was set a compaction ended, or an earlier run reported.
  lemma UngatedIff(states: seq<State>, steps: seq<Step>, n: nat)
    requires IsRun(states, steps) && n <= |steps| && states[n].run == Active(false)
    ensures !Gate(states[n]) <==>
      exists i, b :: 0 <= i < n && ClearedAt(steps, i, n) && BeganAt(steps, b, n) && (steps[i].Compacted? || i < b)
  {
    var b := RunBegan(states, steps, n);
    if !Gate(states[n]) {
      var i := GateCleared(states, steps, n);
      assert steps[i].Compacted? || i < b;
    } else {
      forall i | 0 <= i < n && ClearedAt(steps, i, n)
        ensures false
      {
        StaysCleared(states, steps, i, n);
      }
    }
  }

  // It happens when a caller sets the gate before one run reports and starts its own after.
  lemma RunMayBeUngated()
    ensures exists steps, s :: Reaches(steps, s) && s.run == Active(false) && !Gate(s)
  {
    assert IsRun([Empty], []);
    var both := map[0 := Prompt, 1 := Prompt];
    var a := GoesOn([], Empty, Mark(0, Prompt), State(Set, map[0 := Prompt], NoRun, 0));
    var b := GoesOn(a, State(Set, map[0 := Prompt], NoRun, 0), Mark(1, Prompt), State(Set, both, NoRun, 0));
    assert both - {0} == map[1 := Prompt];
    var c := GoesOn(b, State(Set, both, NoRun, 0), Begin(0), State(Set, map[1 := Prompt], Active(false), 0));
    var d := GoesOn(c, State(Set, map[1 := Prompt], Active(false), 0), Reports, State(Open, map[1 := Prompt], Active(true), 1));
    var e := GoesOn(d, State(Open, map[1 := Prompt], Active(true), 1), Flushed, State(Open, map[1 := Prompt], Active(true), 0));
    var f := GoesOn(e, State(Open, map[1 := Prompt], Active(true), 0), Finishes, State(Open, map[1 := Prompt], NoRun, 0));
    var g := GoesOn(f, State(Open, map[1 := Prompt], NoRun, 0), Begin(1), State(Open, map[], Active(false), 0));
  }

  // --- What is left in the queue ---

  // Nothing failing, a queued write has a gate or a flush to wait for.
  ghost predicate Awaited(s: State) {
    && |s.writes.flying| <= s.flushers
    && (s.writes.pending != [] ==> Gate(s) || s.flushers > 0)
  }

  predicate Fails(step: Step) { step.Write? && step.step.Apply? && !step.step.ok }

  lemma StepKeepsAwaited(s: State, step: Step)
    requires Enabled(s, step) && Awaited(s) && !Fails(step)
    ensures Awaited(Next(s, step))
  {
  }

  lemma {:induction false} EveryRunAwaited(states: seq<State>, steps: seq<Step>, n: nat)
    requires IsRun(states, steps) && n <= |steps|
    requires forall k :: 0 <= k < n ==> !Fails(steps[k])
    ensures forall k: nat :: k <= n ==> Awaited(states[k])
  {
    if n > 0 {
      EveryRunAwaited(states, steps, n - 1);
      assert IsStep(states, steps, n - 1);
      StepKeepsAwaited(states[n - 1], steps[n - 1]);
    }
  }

  // A flush takes the writes one after the other and, nothing failing, applies them.
  function FlushOne(s: State): (t: State)
    requires s.flushers > 0 && s.writes.flying == [] && s.writes.pending != []
    ensures t.writes.pending == s.writes.pending[1..] && t.writes.flying == [] && t.run == s.run && t.flushers == s.flushers
    ensures t.writes.running == s.writes.running
  {
    Next(Next(s, Write(SessionWrites.Take)), Write(SessionWrites.Apply(0, true)))
  }

  function FlushAll(s: State): (t: State)
    requires s.flushers > 0 && s.writes.flying == []
    decreases |s.writes.pending|
  {
    if s.writes.pending == [] then s else FlushAll(FlushOne(s))
  }

  // So the end of a turn gets what is queued by then into the session, in order, while the
  // run goes on behind its gate.
  lemma TurnEndFlushes(s: State)
    requires Enabled(s, TurnEnds) && s.writes.flying == []
    ensures Next(s, TurnEnds).writes == s.writes && Next(s, TurnEnds).flushers > 0
    ensures Standing(FlushAll(Next(s, TurnEnds))) == ([], s.run, Gate(s), SessionWrites.Late(s.writes.log) + s.writes.pending)
  {
    FlushAllLands(Next(s, TurnEnds));
  }

  // The queue, the run, the gate, and the deferred writes in the session.
  ghost function Standing(s: State): (seq<nat>, Run, bool, seq<nat>) {
    (s.writes.pending, s.run, Gate(s), SessionWrites.Late(s.writes.log))
  }

  lemma {:induction false} FlushAllLands(s: State)
    requires s.flushers > 0 && s.writes.flying == []
    ensures Standing(FlushAll(s)) == ([], s.run, Gate(s), SessionWrites.Late(s.writes.log) + s.writes.pending)
    decreases |s.writes.pending|
  {
    if s.writes.pending == [] {
      assert SessionWrites.Late(s.writes.log) + [] == SessionWrites.Late(s.writes.log);
    } else {
      FlushOneLands(s);
      FlushAllLands(FlushOne(s));
    }
  }

  lemma FlushOneLands(s: State)
    requires s.flushers > 0 && s.writes.flying == [] && s.writes.pending != []
    ensures SessionWrites.Late(FlushOne(s).writes.log) + FlushOne(s).writes.pending
         == SessionWrites.Late(s.writes.log) + s.writes.pending
  {
    SessionWrites.LateNext(s.writes.log, SessionWrites.Landed(s.writes.pending[0], true));
    assert s.writes.pending == [s.writes.pending[0]] + s.writes.pending[1..];
  }

  // The writes of a run of the harness are those of a run of flushers and write-throughs.
  lemma {:induction false} WritesReachable(states: seq<State>, steps: seq<Step>, n: nat)
    requires IsRun(states, steps) && n <= |steps|
    ensures SessionWrites.Reachable(states[n].writes)
  {
    if n == 0 {
      SessionWrites.EmptyReachable();
    } else {
      WritesReachable(states, steps, n - 1);
      assert IsStep(states, steps, n - 1);
      WritesStep(states[n - 1], steps[n - 1]);
    }
  }

  lemma WritesStep(s: State, step: Step)
    requires Enabled(s, step) && SessionWrites.Reachable(s.writes)
    ensures SessionWrites.Reachable(Next(s, step).writes)
  {
    match step {
      case Mark(_, _) => SessionWrites.GoesTo(s.writes, SessionWrites.Start);
      case Compacted(_) => SessionWrites.GoesTo(s.writes, SessionWrites.Stop);
      case Reports => SessionWrites.GoesTo(s.writes, SessionWrites.Stop);
      case Write(w) => SessionWrites.GoesTo(s.writes, w);
      case _ =>
    }
  }

  // When all is quiet and no write failed, every deferred write has reached the session, each
  // exactly once, unless the gate is stuck.
  lemma QuietLeavesNothing(states: seq<State>, steps: seq<Step>, n: nat)
    requires IsRun(states, steps) && n <= |steps| && Quiet(states[n]) && !Gate(states[n])
    requires forall k :: 0 <= k < n ==> !Fails(steps[k])
    ensures states[n].writes.pending == [] && states[n].writes.flying == []
    ensures multiset(SessionWrites.Late(states[n].writes.log)) == multiset(states[n].writes.deferred)
  {
    EveryRunAwaited(states, steps, n);
    WritesReachable(states, steps, n);
    var s := states[n].writes;
    var runs, run :| SessionWrites.IsRun(runs, run) && runs[|run|] == s;
    SessionWrites.EveryRunConserves(runs, run, |run|);
  }
}
