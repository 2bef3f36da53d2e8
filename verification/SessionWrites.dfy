// Settings changed during a run reach the session later
// (grain-agent-harness/src/agent_harness.rs `record_session_write` and
// `flush_pending_session_writes`).
module SessionWrites {
  // Writes are numbered in the order in which setters asked for them. A write that passed the
  // gate while no run was in flight goes to the session directly; the others are deferred.
  datatype Landed = Landed(number: nat, late: bool)

  datatype State = State(
    running: bool,
    pending: seq<nat>,
    flying: seq<nat>,      // taken from the queue by a flusher, not yet applied
    direct: set<nat>,      // past the gate, not yet applied
    log: seq<Landed>,
    asked: nat,
    deferred: seq<nat>)    // every write ever deferred

  const Empty := State(false, [], [], {}, [], 0, [])

  datatype Step =
    | Start
    | Stop
    | Ask                              // the gate: defer during a run, pass otherwise
    | Through(number: nat, ok: bool)   // a write that passed is applied, or fails and is dropped
    | Take                             // a flusher takes the head of the queue
    | Apply(flight: nat, ok: bool)     // and applies it, or puts it back at the head

  predicate Enabled(s: State, step: Step) {
    match step
    case Through(n, _) => n in s.direct
    case Take => s.pending != []
    case Apply(k, _) => k < |s.flying|
    case _ => true
  }

  function Without(s: seq<nat>, k: nat): seq<nat>
    requires k < |s|
  {
    s[..k] + s[k + 1..]
  }

  function Next(s: State, step: Step): State
    requires Enabled(s, step)
  {
    match step
    case Start => s.(running := true)
    case Stop => s.(running := false)
    case Ask =>
      if s.running then s.(pending := s.pending + [s.asked], deferred := s.deferred + [s.asked], asked := s.asked + 1)
      else s.(direct := s.direct + {s.asked}, asked := s.asked + 1)
    case Through(n, ok) =>
      s.(direct := s.direct - {n}, log := if ok then s.log + [Landed(n, false)] else s.log)
    case Take => s.(pending := s.pending[1..], flying := s.flying + [s.pending[0]])
    case Apply(k, ok) =>
      if ok then s.(flying := Without(s.flying, k), log := s.log + [Landed(s.flying[k], true)])
      else s.(flying := Without(s.flying, k), pending := [s.flying[k]] + s.pending)
  }

  // The deferred writes among the first n of a log.
  function LateUpTo(log: seq<Landed>, n: nat): seq<nat>
    requires n <= |log|
  {
    if n == 0 then [] else LateUpTo(log, n - 1) + if log[n - 1].late then [log[n - 1].number] else []
  }

  function Late(log: seq<Landed>): seq<nat> {
    LateUpTo(log, |log|)
  }

  lemma {:induction false} LateSame(log: seq<Landed>, l: Landed, n: nat)
    requires n <= |log|
    ensures LateUpTo(log + [l], n) == LateUpTo(log, n)
  {
    if n > 0 {
      LateSame(log, l, n - 1);
    }
  }

  lemma LateNext(log: seq<Landed>, l: Landed)
    ensures Late(log + [l]) == Late(log) + if l.late then [l.number] else []
  {
    LateSame(log, l, |log|);
  }

  // Each deferred write is in the session, in flight or still queued, exactly once.
  ghost predicate Conserved(s: State) {
    multiset(Late(s.log)) + multiset(s.flying) + multiset(s.pending) == multiset(s.deferred)
  }

  // With a single flusher they are there in the order they were deferred.
  ghost predicate InDeferredOrder(s: State) {
    |s.flying| <= 1 && Late(s.log) + s.flying + s.pending == s.deferred
  }

  lemma TakeOut(s: seq<nat>, k: nat)
    requires k < |s|
    ensures multiset(Without(s, k)) + multiset{s[k]} == multiset(s)
  {
    assert s == s[..k] + [s[k]] + s[k + 1..];
  }

  lemma ApplyConserves(s: State, k: nat, ok: bool)
    requires Conserved(s) && k < |s.flying|
    ensures Conserved(Next(s, Apply(k, ok)))
  {
    var w, rest := s.flying[k], Without(s.flying, k);
    TakeOut(s.flying, k);
    if ok {
      LateNext(s.log, Landed(w, true));
      assert multiset(Late(s.log) + [w]) == multiset(Late(s.log)) + multiset{w};
    } else {
      assert multiset([w] + s.pending) == multiset{w} + multiset(s.pending);
    }
  }

  lemma StepConserves(s: State, step: Step)
    requires Conserved(s) && Enabled(s, step)
    ensures Conserved(Next(s, step))
  {
    if step.Apply? {
      ApplyConserves(s, step.flight, step.ok);
    } else if step.Take? {
      TakeConserves(s);
    } else if step.Ask? {
      assert s.running ==> multiset(s.pending + [s.asked]) == multiset(s.pending) + multiset{s.asked};
      assert s.running ==> multiset(s.deferred + [s.asked]) == multiset(s.deferred) + multiset{s.asked};
    } else if step.Through? {
      LateNext(s.log, Landed(step.number, false));
      assert Late(Next(s, step).log) == Late(s.log);
    }
  }

  lemma TakeConserves(s: State)
    requires Conserved(s) && s.pending != []
    ensures Conserved(Next(s, Take))
  {
    assert s.pending == [s.pending[0]] + s.pending[1..];
    assert multiset(s.flying + [s.pending[0]]) == multiset(s.flying) + multiset{s.pending[0]};
  }

  lemma ApplyKeepsOrder(s: State, ok: bool)
    requires InDeferredOrder(s) && |s.flying| == 1
    ensures InDeferredOrder(Next(s, Apply(0, ok)))
  {
    var w := s.flying[0];
    assert s.flying == [w] && Without(s.flying, 0) == [];
    if ok {
      LateNext(s.log, Landed(w, true));
    }
    assert Late(s.log) + [w] + s.pending == Late(s.log) + [] + ([w] + s.pending);
  }

  lemma StepKeepsOrder(s: State, step: Step)
    requires InDeferredOrder(s) && Enabled(s, step)
    requires step.Take? ==> s.flying == []
    ensures InDeferredOrder(Next(s, step))
  {
    if step.Apply? {
      ApplyKeepsOrder(s, step.ok);
    } else if step.Take? {
      assert s.pending == [s.pending[0]] + s.pending[1..];
    } else if step.Through? {
      LateNext(s.log, Landed(step.number, false));
      assert Late(Next(s, step).log) == Late(s.log);
    }
  }

  ghost predicate IsStep(states: seq<State>, steps: seq<Step>, k: nat)
    requires k < |steps| && |states| == |steps| + 1
  {
    Enabled(states[k], steps[k]) && states[k + 1] == Next(states[k], steps[k])
  }

  ghost predicate IsRun(states: seq<State>, steps: seq<Step>) {
    && |states| == |steps| + 1
    && states[0] == Empty
    && forall k :: 0 <= k < |steps| ==> IsStep(states, steps, k)
  }

  // A run goes on with any enabled step.
  lemma Goes(states: seq<State>, steps: seq<Step>, step: Step)
    requires IsRun(states, steps) && Enabled(states[|steps|], step)
    ensures IsRun(states + [Next(states[|steps|], step)], steps + [step])
  {
    var more, all := states + [Next(states[|steps|], step)], steps + [step];
    forall k | 0 <= k < |all|
      ensures IsStep(more, all, k)
    {
      if k < |steps| {
        assert IsStep(states, steps, k);
      }
    }
  }

  ghost predicate Reachable(s: State) {
    exists states: seq<State>, steps: seq<Step> :: (IsRun(states, steps) && states[|steps|] == s)
  }

  lemma GoesTo(s: State, step: Step)
    requires Reachable(s) && Enabled(s, step)
    ensures Reachable(Next(s, step))
  {
    var states, steps :| IsRun(states, steps) && states[|steps|] == s;
    Goes(states, steps, step);
    assert (states + [Next(s, step)])[|steps + [step]|] == Next(s, step);
  }

  lemma EmptyReachable()
    ensures Reachable(Empty)
  {
    assert IsRun([Empty], []);
  }

  ghost predicate OneFlusher(states: seq<State>, steps: seq<Step>)
    requires |states| == |steps| + 1
  {
    forall k :: 0 <= k < |steps| && steps[k].Take? ==> states[k].flying == []
  }

  // What holds at first and is kept by every step holds throughout a run.
  lemma {:induction false} Always(p: State -> bool, states: seq<State>, steps: seq<Step>, k: nat)
    requires IsRun(states, steps) && k <= |steps|
    requires p(Empty)
    requires forall s: State, step: Step {:trigger p(s), Enabled(s, step)} :: p(s) && Enabled(s, step) ==> p(Next(s, step))
    ensures p(states[k])
  {
    if k > 0 {
      Always(p, states, steps, k - 1);
      assert IsStep(states, steps, k - 1);
      assert p(Next(states[k - 1], steps[k - 1]));
    }
  }

  lemma EveryRunConserves(states: seq<State>, steps: seq<Step>, k: nat)
    requires IsRun(states, steps) && k <= |steps|
    ensures Conserved(states[k])
  {
    var p := (s: State) => Conserved(s);
    forall s: State, step: Step | p(s) && Enabled(s, step)
      ensures p(Next(s, step))
    {
      StepConserves(s, step);
    }
    Always(p, states, steps, k);
  }

  // The deferred writes in the session are an initial part of those deferred; all of them
  // once nothing is queued or in flight.
  ghost predicate LandsInOrder(s: State) {
    && Late(s.log) <= s.deferred
    && (s.pending == [] && s.flying == [] ==> Late(s.log) == s.deferred)
  }

  // So it is over any run with one flusher at a time, whatever fails and is put back.
  lemma {:induction false} EveryRunKeepsOrder(states: seq<State>, steps: seq<Step>, k: nat)
    requires IsRun(states, steps) && OneFlusher(states, steps) && k <= |steps|
    ensures forall j :: 0 <= j <= k ==> InDeferredOrder(states[j]) && LandsInOrder(states[j])
  {
    if k > 0 {
      EveryRunKeepsOrder(states, steps, k - 1);
      assert IsStep(states, steps, k - 1);
      StepKeepsOrder(states[k - 1], steps[k - 1]);
    }
  }

  // Two flushers conserve but reorder: the second applies its write first.
  lemma TwoFlushersReorder()
    ensures exists s :: Reachable(s) && Done(s) && s.deferred == [0, 1] && s.log == [Landed(1, true), Landed(0, true)]
  {
    var both := State(true, [], [0, 1], {}, [], 2, [0, 1]);
    assert Reachable(both) by {
      EmptyReachable();
      GoesTo(Empty, Start);
      GoesTo(State(true, [], [], {}, [], 0, []), Ask);
      GoesTo(State(true, [0], [], {}, [], 1, [0]), Ask);
      GoesTo(State(true, [0, 1], [], {}, [], 2, [0, 1]), Take);
      GoesTo(State(true, [1], [0], {}, [], 2, [0, 1]), Take);
    }
    GoesTo(both, Apply(1, true));
    GoesTo(State(true, [], [0], {}, [Landed(1, true)], 2, [0, 1]), Apply(0, true));
  }

  predicate Done(s: State) { s.pending == [] && s.flying == [] && s.direct == {} }

  // --- The order in which writes land ---

  // The session reads the last write as the setting in force, so writes should land in the
  // order asked for.
  ghost predicate Increasing(log: seq<Landed>) {
    forall i, j :: 0 <= i < j < |log| ==> log[i].number < log[j].number
  }

  ghost predicate Outstanding(s: State, n: nat) {
    n in s.pending || n in s.flying || n in s.direct
  }

  function Numbers(log: seq<Landed>): (ns: seq<nat>)
    ensures |ns| == |log|
  {
    seq(|log|, i requires 0 <= i < |log| => log[i].number)
  }

  // All the places in which a write may be.
  ghost function Places(s: State): multiset<nat> {
    multiset(Numbers(s.log)) + multiset(s.flying) + multiset(s.pending) + multiset(s.direct)
  }

  // A write is in one place at most, and only once it was asked for.
  ghost predicate Numbered(s: State) {
    forall n: nat :: Places(s)[n] <= if n < s.asked then 1 else 0
  }

  // No step but an asking or a failed write-through changes that.
  ghost function PlacesAfter(places: multiset<nat>, asked: nat, step: Step): multiset<nat> {
    if step.Ask? then places + multiset{asked}
    else if step.Through? && !step.ok then places - multiset{step.number}
    else places
  }

  lemma NumbersNext(log: seq<Landed>, l: Landed)
    ensures multiset(Numbers(log + [l])) == multiset(Numbers(log)) + multiset{l.number}
  {
    assert Numbers(log + [l]) == Numbers(log) + [l.number];
  }

  lemma ThroughKeepsPlaces(s: State, n: nat, ok: bool)
    requires n in s.direct
    ensures Places(Next(s, Through(n, ok))) == PlacesAfter(Places(s), s.asked, Through(n, ok))
  {
    NumbersNext(s.log, Landed(n, false));
    assert multiset(s.direct - {n}) == multiset(s.direct) - multiset{n};
  }

  lemma ApplyKeepsPlaces(s: State, k: nat, ok: bool)
    requires k < |s.flying|
    ensures Places(Next(s, Apply(k, ok))) == Places(s)
  {
    TakeOut(s.flying, k);
    if ok {
      NumbersNext(s.log, Landed(s.flying[k], true));
    } else {
      assert multiset([s.flying[k]] + s.pending) == multiset{s.flying[k]} + multiset(s.pending);
    }
  }

  lemma QueueKeepsPlaces(s: State, step: Step)
    requires Enabled(s, step) && (step.Ask? || step.Take?)
    requires s.asked !in s.direct
    ensures Places(Next(s, step)) == PlacesAfter(Places(s), s.asked, step)
  {
    if step.Take? {
      assert s.pending == [s.pending[0]] + s.pending[1..];
      assert multiset(s.flying + [s.pending[0]]) == multiset(s.flying) + multiset{s.pending[0]};
    } else if s.running {
      assert multiset(s.pending + [s.asked]) == multiset(s.pending) + multiset{s.asked};
    } else {
      assert multiset(s.direct + {s.asked}) == multiset(s.direct) + multiset{s.asked};
    }
  }

  lemma StepMovesPlaces(s: State, step: Step)
    requires Enabled(s, step) && Numbered(s)
    ensures Places(Next(s, step)) == PlacesAfter(Places(s), s.asked, step)
  {
    match step {
      case Through(n, ok) => ThroughKeepsPlaces(s, n, ok);
      case Apply(k, ok) => ApplyKeepsPlaces(s, k, ok);
      case Start => assert Places(Next(s, step)) == Places(s);
      case Stop => assert Places(Next(s, step)) == Places(s);
      case _ =>
        assert Places(s)[s.asked] == 0;
        QueueKeepsPlaces(s, step);
    }
  }

  lemma StepKeepsNumbered(s: State, step: Step)
    requires Enabled(s, step) && Numbered(s)
    ensures Numbered(Next(s, step))
  {
    StepMovesPlaces(s, step);
  }

  lemma EveryRunNumbered(states: seq<State>, steps: seq<Step>, k: nat)
    requires IsRun(states, steps) && k <= |steps|
    ensures Numbered(states[k])
  {
    var p := (s: State) => Numbered(s);
    forall s: State, step: Step | p(s) && Enabled(s, step)
      ensures p(Next(s, step))
    {
      StepKeepsNumbered(s, step);
    }
    Always(p, states, steps, k);
  }

  // --- What lands, and when ---

  predicate LandsBy(step: Step) {
    (step.Through? || step.Apply?) && step.ok
  }

  function WriteOf(s: State, step: Step): nat
    requires Enabled(s, step) && LandsBy(step)
  {
    if step.Through? then step.number else s.flying[step.flight]
  }

  // The step lands a write while an older one is outstanding that lands too.
  ghost predicate Overtakes(s: State, step: Step, log: seq<Landed>) {
    && Enabled(s, step) && LandsBy(step)
    && exists o: nat :: o < WriteOf(s, step) && Outstanding(s, o) && o in Numbers(log)
  }

  // What a step does to the log and to the outstanding writes.
  ghost predicate Lands(s: State, t: State, write: nat) {
    && |t.log| == |s.log| + 1 && s.log <= t.log && t.log[|s.log|].number == write
    && Outstanding(s, write)
  }

  lemma StepLands(s: State, step: Step)
    requires Enabled(s, step)
    ensures if LandsBy(step) then Lands(s, Next(s, step), WriteOf(s, step)) else Next(s, step).log == s.log
    ensures s.asked <= Next(s, step).asked
  {
  }

  lemma StepBack(s: State, step: Step, o: nat)
    requires Enabled(s, step) && Outstanding(Next(s, step), o)
    ensures Outstanding(s, o) || o >= s.asked
  {
  }

  // The same along a run.
  lemma {:induction false} LogGrows(states: seq<State>, steps: seq<Step>, m: nat, n: nat)
    requires IsRun(states, steps) && m <= n <= |steps|
    ensures states[m].log <= states[n].log && states[m].asked <= states[n].asked
    decreases n
  {
    if m < n {
      LogGrows(states, steps, m, n - 1);
      assert IsStep(states, steps, n - 1);
      StepLands(states[n - 1], steps[n - 1]);
    }
  }

  lemma {:induction false} OutstandingBefore(states: seq<State>, steps: seq<Step>, m: nat, n: nat, o: nat)
    requires IsRun(states, steps) && m <= n <= |steps| && Outstanding(states[n], o)
    ensures Outstanding(states[m], o) || o >= states[m].asked
    decreases n
  {
    if m < n {
      assert IsStep(states, steps, n - 1);
      StepBack(states[n - 1], steps[n - 1], o);
      if Outstanding(states[n - 1], o) {
        OutstandingBefore(states, steps, m, n - 1, o);
      } else {
        LogGrows(states, steps, m, n - 1);
      }
    }
  }

  // When the i-th entry of the log landed.
  lemma {:induction false} LandingOf(states: seq<State>, steps: seq<Step>, n: nat, i: nat) returns (k: nat)
    requires IsRun(states, steps) && n <= |steps| && i < |states[n].log|
    ensures k < n && Enabled(states[k], steps[k]) && LandsBy(steps[k]) && |states[k].log| == i
    ensures states[n].log[i].number == WriteOf(states[k], steps[k]) && Outstanding(states[k], WriteOf(states[k], steps[k]))
    ensures |states[k + 1].log| == i + 1 && states[k + 1].log[i] == states[n].log[i]
  {
    assert IsStep(states, steps, n - 1);
    StepLands(states[n - 1], steps[n - 1]);
    if i < |states[n - 1].log| {
      k := LandingOf(states, steps, n - 1, i);
    } else {
      k := n - 1;
    }
  }

  lemma OnlyOnePlace(s: State, n: nat)
    requires Numbered(s) && Outstanding(s, n)
    ensures n !in Numbers(s.log) && n < s.asked
  {
    assert n in Numbers(s.log) <==> multiset(Numbers(s.log))[n] > 0;
    assert Places(s)[n] >= multiset(Numbers(s.log))[n] + 1;
  }

  lemma OvertakingShows(states: seq<State>, steps: seq<Step>, k: nat)
    requires IsRun(states, steps) && k < |steps| && Overtakes(states[k], steps[k], states[|steps|].log)
    ensures !Increasing(states[|steps|].log)
  {
    var log, s := states[|steps|].log, states[k];
    var o: nat :| o < WriteOf(s, steps[k]) && Outstanding(s, o) && o in Numbers(log);
    var p :| 0 <= p < |log| && Numbers(log)[p] == o;
    assert IsStep(states, steps, k);
    StepLands(s, steps[k]);
    LogGrows(states, steps, k + 1, |steps|);
    assert p < |s.log| ==> o == Numbers(s.log)[p];
    EveryRunNumbered(states, steps, k);
    OnlyOnePlace(s, o);
    assert log[|s.log|].number == WriteOf(s, steps[k]) > log[p].number;
  }

  lemma DisorderOvertakes(states: seq<State>, steps: seq<Step>, i: nat, j: nat) returns (k: nat)
    requires IsRun(states, steps) && i < j < |states[|steps|].log|
    requires states[|steps|].log[i].number >= states[|steps|].log[j].number
    ensures k < |steps| && Overtakes(states[k], steps[k], states[|steps|].log)
  {
    var n := |steps|;
    var o := states[n].log[j].number;
    k := LandingOf(states, steps, n, i);
    var later := LandingOf(states, steps, n, j);
    if later <= k {
      LogGrows(states, steps, later, k);
    }
    EveryRunNumbered(states, steps, k);
    OnlyOnePlace(states[k], WriteOf(states[k], steps[k]));
    LogGrows(states, steps, k, k + 1);
    OutstandingBefore(states, steps, k + 1, later, o);
    OutstandingBefore(states, steps, k, k + 1, o);
    EveryRunNumbered(states, steps, k + 1);
    OnlyOnePlace(states[k + 1], o);
    assert Numbers(states[k + 1].log)[i] == WriteOf(states[k], steps[k]);
    assert Numbers(states[n].log)[j] == o;
  }

  // Over a whole run, with any number of flushers, racing write-throughs and failures: what
  // landed did so in the order asked for exactly when no write landed while an older one that
  // was still to land was queued, in flight or past the gate.
  lemma IncreasingIff(states: seq<State>, steps: seq<Step>)
    requires IsRun(states, steps)
    ensures Increasing(states[|steps|].log) <==>
      forall k :: 0 <= k < |steps| ==> !Overtakes(states[k], steps[k], states[|steps|].log)
  {
    var log := states[|steps|].log;
    forall k | 0 <= k < |steps| && Overtakes(states[k], steps[k], log)
      ensures !Increasing(log)
    {
      OvertakingShows(states, steps, k);
    }
    forall i, j | 0 <= i < j < |log| && log[i].number >= log[j].number
      ensures exists k :: 0 <= k < |steps| && Overtakes(states[k], steps[k], log)
    {
      var k := DisorderOvertakes(states, steps, i, j);
    }
  }

  // --- One flusher, and no two write-throughs at a time ---

  // A write that passes the gate is applied, or fails, before anything else happens.
  ghost predicate AtOnce(states: seq<State>, steps: seq<Step>)
    requires |states| == |steps| + 1
  {
    forall k :: 0 <= k < |steps| && steps[k].Ask? && !states[k].running ==>
      k + 1 < |steps| && steps[k + 1].Through? && steps[k + 1].number == states[k].asked
  }

  // What one flusher and write-throughs at once keep: deferred writes in the order asked for,
  // and no write past the gate but the newest, if it is applied next.
  ghost predicate Orderly(s: State, passing: bool) {
    && InDeferredOrder(s)
    && (forall i, j :: 0 <= i < j < |s.deferred| ==> s.deferred[i] < s.deferred[j])
    && (forall i :: 0 <= i < |s.deferred| ==> s.deferred[i] < s.asked)
    && (s.direct == {} || (passing && s.asked > 0 && s.direct == {s.asked - 1}))
  }

  lemma StepKeepsOrderly(s: State, step: Step, passing: bool)
    requires Enabled(s, step) && Orderly(s, step.Through?)
    requires step.Take? ==> s.flying == []
    requires step.Ask? && !s.running ==> passing
    ensures Orderly(Next(s, step), passing)
  {
    StepKeepsOrder(s, step);
  }

  ghost predicate Passing(steps: seq<Step>, k: nat) {
    k < |steps| && steps[k].Through?
  }

  lemma {:induction false} EveryRunOrderly(states: seq<State>, steps: seq<Step>, k: nat)
    requires IsRun(states, steps) && OneFlusher(states, steps) && AtOnce(states, steps) && k <= |steps|
    ensures forall j: nat :: j <= k ==> Orderly(states[j], Passing(steps, j))
  {
    if k > 0 {
      EveryRunOrderly(states, steps, k - 1);
      assert IsStep(states, steps, k - 1);
      StepKeepsOrderly(states[k - 1], steps[k - 1], Passing(steps, k));
    }
  }

  // A deferred write that has not landed is queued or in flight until it does.
  lemma {:induction false} DeferredLands(states: seq<State>, steps: seq<Step>, k: nat, n: nat, o: nat)
    requires IsRun(states, steps) && k <= n <= |steps| && (o in states[k].pending || o in states[k].flying)
    ensures o in states[n].pending || o in states[n].flying || o in Numbers(states[n].log)
    decreases n
  {
    if k < n {
      DeferredLands(states, steps, k, n - 1, o);
      assert IsStep(states, steps, n - 1);
      StaysDeferred(states[n - 1], steps[n - 1], o);
    }
  }

  lemma StaysDeferred(s: State, step: Step, o: nat)
    requires Enabled(s, step) && (o in s.pending || o in s.flying || o in Numbers(s.log))
    ensures var t := Next(s, step); o in t.pending || o in t.flying || o in Numbers(t.log)
  {
    var t := Next(s, step);
    if o in Numbers(s.log) {
      StepLands(s, step);
      var p :| 0 <= p < |s.log| && Numbers(s.log)[p] == o;
      assert Numbers(t.log)[p] == o;
    } else if step.Apply? {
      TakeOut(s.flying, step.flight);
      assert o in multiset(s.flying) || o in s.pending;
      if o == s.flying[step.flight] && step.ok {
        assert Numbers(t.log)[|s.log|] == o;
      }
    }
  }

  // A deferred write that lands overtakes none.
  lemma ApplyInOrder(s: State, k: nat, o: nat)
    requires Orderly(s, false) && k < |s.flying| && Outstanding(s, o)
    ensures o >= s.flying[k]
  {
    var late := |Late(s.log)|;
    assert s.deferred[late] == s.flying[0];
    if o in s.pending {
      var p :| 0 <= p < |s.pending| && s.pending[p] == o;
      assert s.deferred[late + 1 + p] == o;
    }
  }

  // A write-through that lands overtakes what is queued or in flight, which all lands later.
  lemma ThroughOvertakesIff(states: seq<State>, steps: seq<Step>, k: nat)
    requires IsRun(states, steps) && Done(states[|steps|]) && k < |steps| && steps[k].Through? && steps[k].ok
    requires Orderly(states[k], true)
    ensures Overtakes(states[k], steps[k], states[|steps|].log) <==> Waiting(states[k]) != []
  {
    var s, log := states[k], states[|steps|].log;
    assert IsStep(states, steps, k);
    EveryRunNumbered(states, steps, k);
    if Waiting(s) != [] {
      var o := Waiting(s)[0];
      assert o in s.pending || o in s.flying;
      DeferredLands(states, steps, k, |steps|, o);
      OnlyOnePlace(s, o);
      assert Places(s)[s.asked - 1] <= 1;
      assert o != s.asked - 1;
    }
  }

  // The deferred writes that have not landed.
  function Waiting(s: State): seq<nat> { s.flying + s.pending }

  // Then the writes of a run that leaves nothing behind land in the order asked for exactly
  // when every write that goes through finds nothing queued and nothing in a flusher's hands.
  lemma ThroughInOrderIff(states: seq<State>, steps: seq<Step>)
    requires IsRun(states, steps) && OneFlusher(states, steps) && AtOnce(states, steps) && Done(states[|steps|])
    ensures Increasing(states[|steps|].log) <==>
      forall k :: 0 <= k < |steps| && steps[k].Through? && steps[k].ok ==> Waiting(states[k]) == []
  {
    IncreasingIff(states, steps);
    forall k | 0 <= k < |steps|
      ensures Overtakes(states[k], steps[k], states[|steps|].log) <==> steps[k].Through? && steps[k].ok && Waiting(states[k]) != []
    {
      EveryRunOrderly(states, steps, k);
      if steps[k].Through? && steps[k].ok {
        ThroughOvertakesIff(states, steps, k);
      } else if Overtakes(states[k], steps[k], states[|steps|].log) {
        var o: nat :| o < WriteOf(states[k], steps[k]) && Outstanding(states[k], o);
        ApplyInOrder(states[k], steps[k].flight, o);
      }
    }
  }

  // Such a state is reached whenever a run stops before its last flush: here the older
  // write 0 lands after the newer write 1, with one flusher and nothing failing.
  lemma OlderWriteLandsLast()
    ensures exists s :: Reachable(s) && Done(s) && s.log == [Landed(1, false), Landed(0, true)]
  {
    var asked := State(false, [0], [], {1}, [], 2, [0]);
    assert Reachable(asked) by {
      EmptyReachable();
      GoesTo(Empty, Start);
      GoesTo(State(true, [], [], {}, [], 0, []), Ask);
      GoesTo(State(true, [0], [], {}, [], 1, [0]), Stop);
      GoesTo(State(false, [0], [], {}, [], 1, [0]), Ask);
    }
    GoesTo(asked, Through(1, true));
    GoesTo(State(false, [0], [], {}, [Landed(1, false)], 2, [0]), Take);
    GoesTo(State(false, [], [0], {}, [Landed(1, false)], 2, [0]), Apply(0, true));
  }

  // --- One caller at a time ---

  class Harness {
    var running: bool
    var pending: seq<nat>
    var session: seq<nat>

    constructor ()
      ensures !running && pending == [] && session == []
    {
      running, pending, session := false, [], [];
    }

    // During a run the write is queued; otherwise it is applied now and its outcome reported.
    method RecordSessionWrite(write: nat, applies: bool) returns (ok: bool)
      modifies this
      ensures running == old(running)
      ensures ok <==> old(running) || applies
      ensures pending == if old(running) then old(pending) + [write] else old(pending)
      ensures session == if !old(running) && applies then old(session) + [write] else old(session)
    {
      if running {
        pending := pending + [write];
        return true;
      }
      if applies {
        session := session + [write];
      }
      return applies;
    }

    // Applies the queue from its head until it is empty or a write fails; a failed write is
    // back at the head.
    method FlushPendingSessionWrites(applies: nat -> bool)
      modifies this
      ensures running == old(running)
      ensures session + pending == old(session) + old(pending)
      ensures |session| >= |old(session)| && session[..|old(session)|] == old(session)
      ensures forall w :: w in session[|old(session)|..] ==> applies(w)
      ensures pending != [] ==> !applies(pending[0])
    {
      while pending != []
        invariant running == old(running)
        invariant session + pending == old(session) + old(pending)
        invariant |session| >= |old(session)| && session[..|old(session)|] == old(session)
        invariant forall w :: w in session[|old(session)|..] ==> applies(w)
        decreases |pending|
      {
        var next := pending[0];
        pending := pending[1..];
        if !applies(next) {
          pending := [next] + pending;
          return;
        }
        session := session + [next];
      }
    }
  }
}
