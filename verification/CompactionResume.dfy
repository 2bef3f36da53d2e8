// A compacted transcript against the one a resume rebuilds
// (grain-agent-harness/src/compaction.rs and session.rs).
module CompactionResume {
  import opened Messages
  import opened SessionTree

  predicate Contributes(kind: EntryKind) {
    kind.MessageEntry? || kind.CustomMessage? || kind.BranchSummaryEntry? || kind.Compaction?
  }

  // An entry counts when a branch of it alone is read as something, and so does an empty
  // branch summary, which is read as nothing.
  lemma ContributesIff(e: Entry)
    ensures Contributes(e.kind) <==> ContextMessages([e]) != [] || e.kind.BranchSummaryEntry?
  {
    assert MessagesIn([e], 0, 1) == MessagesIn([e], 0, 0) + MessagesOf(e);
  }

  function Contributors(path: seq<Entry>, n: nat): (count: nat)
    requires n <= |path|
  {
    if n == 0 then 0 else Contributors(path, n - 1) + if Contributes(path[n - 1].kind) then 1 else 0
  }

  // Position of the kth contributing entry among the first n.
  function NthContributor(path: seq<Entry>, k: nat, n: nat): (at: Option<nat>)
    requires n <= |path|
    ensures at.Some? ==> at.value < n && Contributes(path[at.value].kind) && Contributors(path, at.value) == k
    ensures at.None? ==> Contributors(path, n) <= k
  {
    if n == 0 then None
    else
      var before := NthContributor(path, k, n - 1);
      if before.Some? then before
      else if Contributes(path[n - 1].kind) && Contributors(path, n - 1) == k then Some(n - 1)
      else None
  }

  // `first_kept_context_entry_id`, and the leaf id the hook falls back on.
  function FirstKeptId(path: seq<Entry>, prefixLen: nat): string {
    match NthContributor(path, prefixLen, |path|)
    case Some(at) => path[at].id
    case None => if path == [] then "" else path[|path| - 1].id
  }

  // ---- Messages along a branch -----------------------------------------------------------

  function AllMessages(path: seq<Entry>): seq<AgentMessage> {
    MessagesIn(path, 0, |path|)
  }

  function MessageCount(path: seq<Entry>, n: nat): nat
    requires n <= |path|
  {
    |MessagesIn(path, 0, n)|
  }

  lemma {:induction false} SplitMessages(path: seq<Entry>, lo: nat, mid: nat, hi: nat)
    requires lo <= mid <= hi <= |path|
    ensures MessagesIn(path, lo, hi) == MessagesIn(path, lo, mid) + MessagesIn(path, mid, hi)
    decreases hi
  {
    if mid < hi {
      SplitMessages(path, lo, mid, hi - 1);
    }
  }

  // An entry that contributes without carrying a message: an empty branch summary, or an
  // earlier compaction.
  predicate IsBare(e: Entry) {
    Contributes(e.kind) && MessagesOf(e) == []
  }

  ghost predicate BareBefore(path: seq<Entry>, n: nat)
    requires n <= |path|
  {
    exists j :: 0 <= j < n && IsBare(path[j])
  }

  // Messages are at most contributors, one for one exactly when no bare entry is among them.
  lemma {:induction false} MessagesAgainstContributors(path: seq<Entry>, n: nat)
    requires n <= |path|
    ensures MessageCount(path, n) <= Contributors(path, n)
    ensures MessageCount(path, n) == Contributors(path, n) <==> !BareBefore(path, n)
  {
    if n > 0 {
      MessagesAgainstContributors(path, n - 1);
      if IsBare(path[n - 1]) {
        assert BareBefore(path, n);
      } else if BareBefore(path, n - 1) {
        var j :| 0 <= j < n - 1 && IsBare(path[j]);
        assert BareBefore(path, n);
      }
    }
  }

  // The first contributor of the branch is bare.
  ghost predicate LeadsBare(path: seq<Entry>) {
    exists f :: 0 <= f < |path| && IsBare(path[f]) && Contributors(path, f) == 0
  }

  lemma {:induction false} ContributorsMonotone(path: seq<Entry>, lo: nat, hi: nat)
    requires lo <= hi <= |path|
    ensures Contributors(path, lo) <= Contributors(path, hi)
    ensures lo < hi && Contributes(path[lo].kind) ==> Contributors(path, lo) < Contributors(path, hi)
    ensures MessageCount(path, lo) <= MessageCount(path, hi)
    decreases hi
  {
    if lo < hi {
      ContributorsMonotone(path, lo, hi - 1);
    }
  }

  // With at least one contributor before n, either a message lies before n or the branch
  // leads bare; if it leads bare, messages before n are strictly fewer.
  lemma {:induction false} LeadingContributor(path: seq<Entry>, n: nat)
    requires n <= |path| && Contributors(path, n) > 0
    ensures MessageCount(path, n) > 0 || LeadsBare(path)
    ensures LeadsBare(path) ==> MessageCount(path, n) < Contributors(path, n)
  {
    var first := NthContributor(path, 0, n);
    assert first.Some?;
    var f := first.value;
    if IsBare(path[f]) {
      BareAmong(path, f, n);
    } else {
      ContributorsMonotone(path, f + 1, n);
    }
    if LeadsBare(path) {
      var g :| 0 <= g < |path| && IsBare(path[g]) && Contributors(path, g) == 0;
      FirstContributorUnique(path, f, g);
    }
  }

  lemma BareAmong(path: seq<Entry>, f: nat, n: nat)
    requires f < n <= |path| && IsBare(path[f])
    ensures MessageCount(path, n) < Contributors(path, n)
  {
    assert BareBefore(path, n);
    MessagesAgainstContributors(path, n);
  }

  lemma {:induction false} FirstContributorUnique(path: seq<Entry>, f: nat, g: nat)
    requires f < |path| && g < |path| && Contributes(path[f].kind) && Contributes(path[g].kind)
    requires Contributors(path, f) == Contributors(path, g)
    ensures f == g
  {
    if g < f {
      ContributorsMonotone(path, g, f);
    } else if f < g {
      ContributorsMonotone(path, f, g);
    }
  }

  // ---- What a resume rebuilds ------------------------------------------------------------

  // How many of the branch's messages the rebuilt context leaves out.
  function Boundary(path: seq<Entry>): nat {
    match LastCompaction(path, |path|)
    case None => 0
    case Some(c) => MessageCount(path, FirstWithId(path, path[c].kind.firstKeptEntryId, c))
  }

  function Head(path: seq<Entry>): (head: seq<AgentMessage>)
    ensures |head| <= 1
  {
    match LastCompaction(path, |path|)
    case None => []
    case Some(c) => [Custom(CompactionSummary(path[c].kind.summary, path[c].kind.tokensBefore))]
  }

  lemma CompactionAddsNoMessage(path: seq<Entry>, lo: nat, c: nat)
    requires lo <= c < |path| && path[c].kind.Compaction?
    ensures MessagesIn(path, lo, |path|) == MessagesIn(path, lo, c) + MessagesIn(path, c + 1, |path|)
  {
    SplitMessages(path, lo, c + 1, |path|);
    assert MessagesIn(path, lo, c + 1) == MessagesIn(path, lo, c) + [];
  }

  // The rebuilt context is the summary, if any, and the branch's messages from the boundary.
  lemma {:induction false} RebuiltIsHeadAndTail(path: seq<Entry>)
    ensures Boundary(path) <= |AllMessages(path)|
    ensures ContextMessages(path) == Head(path) + AllMessages(path)[Boundary(path)..]
  {
    match LastCompaction(path, |path|)
    case None =>
    case Some(c) =>
      var kept := FirstWithId(path, path[c].kind.firstKeptEntryId, c);
      TailBehindBoundary(path, kept, c);
      ContextBehind(path, c, kept, Head(path), MessagesIn(path, kept, c), MessagesIn(path, c + 1, |path|));
  }

  lemma {:induction false} ContextBehind(path: seq<Entry>, c: nat, kept: nat, head: seq<AgentMessage>, before: seq<AgentMessage>, after: seq<AgentMessage>)
    requires c < |path| && LastCompaction(path, |path|) == Some(c)
    requires kept == FirstWithId(path, path[c].kind.firstKeptEntryId, c)
    requires head == Head(path) && before == MessagesIn(path, kept, c) && after == MessagesIn(path, c + 1, |path|)
    ensures ContextMessages(path) == head + (before + after)
  {
    assert ContextMessages(path) == head + before + after;
    Associative(head, before, after);
  }

  lemma Associative(a: seq<AgentMessage>, b: seq<AgentMessage>, c: seq<AgentMessage>)
    ensures a + b + c == a + (b + c)
  {
  }

  lemma TailBehindBoundary(path: seq<Entry>, kept: nat, c: nat)
    requires kept <= c < |path| && path[c].kind.Compaction?
    ensures MessageCount(path, kept) <= |AllMessages(path)|
    ensures AllMessages(path)[MessageCount(path, kept)..] == MessagesIn(path, kept, c) + MessagesIn(path, c + 1, |path|)
  {
    SplitMessages(path, 0, kept, |path|);
    CompactionAddsNoMessage(path, kept, c);
  }

  // ---- Runs ------------------------------------------------------------------------------

  // `path` is the branch at the leaf and `known` every branch reached so far; `summarized`
  // and `dropped` say what the live transcript stands for.
  datatype State = State(
    path: seq<Entry>,
    known: seq<seq<Entry>>,
    issued: set<string>,
    live: seq<AgentMessage>,
    summarized: bool,
    dropped: nat)

  datatype Op =
    | Say(id: string, message: AgentMessage)                       // a message ends and is mirrored
    | Note(id: string, kind: EntryKind)                            // an entry without a message
    | Compact(id: string, prefixLen: nat, summary: string, tokensBefore: nat, saved: bool)
    | Resume(branch: nat)                                          // rebuild on a known branch
    | Graft(branch: nat, id: string, kind: EntryKind)              // hang an entry there, then rebuild

  ghost predicate Enabled(s: State, op: Op) {
    match op
    case Say(id, _) => id !in s.issued
    case Note(id, kind) => id !in s.issued && !kind.Compaction? && MessagesOf(Entry(id, None, kind)) == []
    case Compact(id, p, _, _, _) => id !in s.issued && 2 <= p <= |s.live|
    case Resume(k) => k < |s.known|
    case Graft(k, id, kind) => k < |s.known| && id !in s.issued && !kind.Compaction?
  }

  function Extend(path: seq<Entry>, id: string, kind: EntryKind): seq<Entry> {
    path + [Entry(id, if path == [] then None else Some(path[|path| - 1].id), kind)]
  }

  function Goto(s: State, path: seq<Entry>, live: seq<AgentMessage>, ids: set<string>): State {
    s.(path := path, known := s.known + [path], live := live, issued := s.issued + ids)
  }

  function Rebuild(s: State, path: seq<Entry>, ids: set<string>): State {
    Goto(s, path, ContextMessages(path), ids)
      .(summarized := LastCompaction(path, |path|).Some?, dropped := Boundary(path))
  }

  // A failed persist is not fatal: the live transcript is rewritten all the same.
  function Step(s: State, op: Op): State
    requires op.Resume? ==> op.branch < |s.known|
    requires op.Graft? ==> op.branch < |s.known|
    requires op.Compact? ==> 2 <= op.prefixLen <= |s.live|
  {
    match op
    case Say(id, m) => Goto(s, Extend(s.path, id, MessageEntry(m)), s.live + [m], {id})
    case Note(id, kind) => Goto(s, Extend(s.path, id, kind), s.live, {id})
    case Compact(id, p, summary, tokens, saved) =>
      var live := [Custom(CompactionSummary(summary, tokens))] + s.live[p..];
      var path := if saved then Extend(s.path, id, Compaction(summary, FirstKeptId(s.path, p), tokens)) else s.path;
      Goto(s, path, live, {id})
        .(summarized := true, dropped := if s.summarized then s.dropped + p - 1 else p)
    case Resume(k) => Rebuild(s, s.known[k], {})
    case Graft(k, id, kind) => Rebuild(s, Extend(s.known[k], id, kind), {id})
  }

  const Start := State([], [[]], {}, [], false, 0)

  // ---- The invariant -----------------------------------------------------------------------

  ghost predicate IdsIn(path: seq<Entry>, issued: set<string>) {
    UniqueIds(path) && forall k :: 0 <= k < |path| ==> path[k].id in issued
  }

  ghost predicate GoodBranch(path: seq<Entry>, issued: set<string>) {
    && IdsIn(path, issued)
    && (LastCompaction(path, |path|).Some? ==> Boundary(path) > 0 || LeadsBare(path))
  }

  ghost predicate IsLive(live: seq<AgentMessage>, path: seq<Entry>, summarized: bool, dropped: nat) {
    var all := AllMessages(path);
    && dropped <= |all|
    && (if summarized then |live| > 0 && live[1..] == all[dropped..] else dropped == 0 && live == all)
  }

  ghost predicate Good(s: State) {
    && (forall k :: 0 <= k < |s.known| ==> GoodBranch(s.known[k], s.issued))
    && GoodBranch(s.path, s.issued)
    && IsLive(s.live, s.path, s.summarized, s.dropped)
    && Boundary(s.path) <= s.dropped
    && (s.summarized ==> s.dropped > 0 || LeadsBare(s.path))
    && (!s.summarized ==> LastCompaction(s.path, |s.path|).None?)
  }

  lemma {:induction false} CountsSamePrefix(path: seq<Entry>, e: Entry, n: nat)
    requires n <= |path|
    ensures Contributors(path + [e], n) == Contributors(path, n)
    decreases n
  {
    if n > 0 {
      assert (path + [e])[n - 1] == path[n - 1];
      CountsSamePrefix(path, e, n - 1);
    }
  }

  lemma LeadsBareStays(path: seq<Entry>, e: Entry)
    requires LeadsBare(path)
    ensures LeadsBare(path + [e])
  {
    var f :| 0 <= f < |path| && IsBare(path[f]) && Contributors(path, f) == 0;
    CountsSamePrefix(path, e, f);
    assert (path + [e])[f] == path[f];
  }

  lemma ExtendMessages(path: seq<Entry>, e: Entry)
    ensures AllMessages(path + [e]) == AllMessages(path) + MessagesOf(e)
    ensures LastCompaction(path + [e], |path| + 1)
         == if e.kind.Compaction? then Some(|path|) else LastCompaction(path, |path|)
  {
    assert (path + [e])[|path|] == e;
    ReadsSamePrefix(path, e, "", 0, |path|);
  }

  lemma ExtendBoundary(path: seq<Entry>, e: Entry)
    ensures !e.kind.Compaction? ==> Boundary(path + [e]) == Boundary(path)
    ensures e.kind.Compaction? ==>
              Boundary(path + [e]) == MessageCount(path, FirstWithId(path, e.kind.firstKeptEntryId, |path|))
  {
    var all := path + [e];
    ExtendMessages(path, e);
    match LastCompaction(all, |all|)
    case None =>
    case Some(c) =>
      var kind := all[c].kind;
      assert kind == if e.kind.Compaction? then e.kind else path[c].kind;
      ReadsSamePrefix(path, e, kind.firstKeptEntryId, 0, c);
      ReadsSamePrefix(path, e, "", 0, FirstWithId(path, kind.firstKeptEntryId, c));
  }

  lemma ExtendKeepsGoodBranch(path: seq<Entry>, issued: set<string>, e: Entry)
    requires GoodBranch(path, issued) && e.id !in issued && !e.kind.Compaction?
    ensures GoodBranch(path + [e], issued + {e.id})
  {
    ExtendMessages(path, e);
    ExtendBoundary(path, e);
    if LeadsBare(path) {
      LeadsBareStays(path, e);
    }
  }

  // Where the saved compaction will start the rebuilt tail.
  function KeptAt(path: seq<Entry>, p: nat): (k: nat)
    requires path != []
    ensures k < |path|
  {
    match NthContributor(path, p, |path|)
    case Some(at) => at
    case None => |path| - 1
  }

  lemma FirstKeptIsFound(path: seq<Entry>, p: nat)
    requires UniqueIds(path) && path != []
    ensures FirstWithId(path, FirstKeptId(path, p), |path|) == KeptAt(path, p)
  {
    NoneEarlierOrLater(path, FirstKeptId(path, p), |path|, KeptAt(path, p));
  }

  // The arithmetic at the centre: the id recorded counts contributors of the whole branch,
  // the cut counts messages of the live transcript, and the first never lies behind the
  // second.
  lemma KeptBeforeDropped(s: State, p: nat)
    requires Good(s) && 2 <= p <= |s.live|
    ensures s.path != []
    ensures var dropped := if s.summarized then s.dropped + p - 1 else p;
            && MessageCount(s.path, KeptAt(s.path, p)) <= dropped <= |AllMessages(s.path)|
            && (MessageCount(s.path, KeptAt(s.path, p)) > 0 || LeadsBare(s.path))
  {
    var path, n := s.path, |s.path|;
    assert |s.live| <= |AllMessages(path)| + 1;
    assert path != [];
    MessagesAgainstContributors(path, n);
    var k := KeptAt(path, p);
    ContributorsMonotone(path, k, n);
    MessagesAgainstContributors(path, k);
    if NthContributor(path, p, n).Some? {
      LeadingContributor(path, k);
    } else {
      LeadingContributor(path, n);
      // A single contributor, and a message, cannot make a transcript of two.
      assert Contributors(path, k) > 0 || LeadsBare(path);
      if Contributors(path, k) > 0 {
        LeadingContributor(path, k);
      }
    }
  }

  lemma CompactedLive(s: State, p: nat, summary: AgentMessage)
    requires Good(s) && 2 <= p <= |s.live|
    ensures IsLive([summary] + s.live[p..], s.path, true, if s.summarized then s.dropped + p - 1 else p)
  {
    KeptBeforeDropped(s, p);
    var all := AllMessages(s.path);
    assert ([summary] + s.live[p..])[1..] == s.live[p..];
    if s.summarized {
      assert s.live[p..] == s.live[1..][p - 1..];
      assert all[s.dropped..][p - 1..] == all[s.dropped + p - 1..];
    }
  }

  lemma SavedBranchIsGood(s: State, p: nat, e: Entry)
    requires Good(s) && 2 <= p <= |s.live| && e.id !in s.issued
    requires e.kind.Compaction? && e.kind.firstKeptEntryId == FirstKeptId(s.path, p)
    ensures GoodBranch(s.path + [e], s.issued + {e.id})
    ensures Boundary(s.path + [e]) <= if s.summarized then s.dropped + p - 1 else p
    ensures AllMessages(s.path + [e]) == AllMessages(s.path)
  {
    KeptBeforeDropped(s, p);
    ExtendMessages(s.path, e);
    ExtendBoundary(s.path, e);
    FirstKeptIsFound(s.path, p);
    if LeadsBare(s.path) {
      LeadsBareStays(s.path, e);
    }
  }

  lemma CompactKeepsGood(s: State)
    requires Good(s)
    ensures forall op: Op :: op.Compact? && Enabled(s, op) ==> Good(Step(s, op))
  {
    forall op: Op | op.Compact? && Enabled(s, op)
      ensures Good(Step(s, op))
    {
      var s' := Step(s, op);
      CompactedLive(s, op.prefixLen, s'.live[0]);
      KeptBeforeDropped(s, op.prefixLen);
      if op.saved {
        SavedBranchIsGood(s, op.prefixLen, s'.path[|s.path|]);
      }
    }
  }

  lemma RebuildIsGood(s: State, path: seq<Entry>, ids: set<string>)
    requires Good(s) && GoodBranch(path, s.issued + ids)
    ensures Good(Rebuild(s, path, ids))
  {
    RebuiltIsHeadAndTail(path);
  }

  lemma StepKeepsGood(s: State, op: Op)
    requires Good(s) && Enabled(s, op)
    ensures Good(Step(s, op))
  {
    match op
    case Say(id, m) =>
      var e := Step(s, op).path[|s.path|];
      SayOrNoteKeepsGood(s, e, [m]);
    case Note(id, kind) =>
      var e := Step(s, op).path[|s.path|];
      SayOrNoteKeepsGood(s, e, []);
    case Compact(_, _, _, _, _) =>
      CompactKeepsGood(s);
    case Resume(k) =>
      RebuildIsGood(s, s.known[k], {});
    case Graft(k, id, kind) =>
      var path := Extend(s.known[k], id, kind);
      ExtendKeepsGoodBranch(s.known[k], s.issued, path[|s.known[k]|]);
      RebuildIsGood(s, path, {id});
  }

  lemma SayOrNoteKeepsGood(s: State, e: Entry, ms: seq<AgentMessage>)
    requires Good(s) && e.id !in s.issued && !e.kind.Compaction? && ms == MessagesOf(e)
    ensures Good(Goto(s, s.path + [e], s.live + ms, {e.id}))
  {
    ExtendMessages(s.path, e);
    ExtendBoundary(s.path, e);
    ExtendKeepsGoodBranch(s.path, s.issued, e);
    var all := AllMessages(s.path);
    assert (all + ms)[s.dropped..] == all[s.dropped..] + ms;
    if s.summarized {
      assert (s.live + ms)[1..] == s.live[1..] + ms;
    }
    if LeadsBare(s.path) {
      LeadsBareStays(s.path, e);
    }
  }

  ghost predicate IsRun(states: seq<State>, ops: seq<Op>) {
    && |states| == |ops| + 1 && states[0] == Start
    && forall k: nat :: k < |ops| ==> IsStep(states[k], ops[k], states[k + 1])
  }

  ghost predicate IsStep(s: State, op: Op, s': State) {
    Enabled(s, op) && s' == Step(s, op)
  }

  lemma {:induction false} RunsAreGood(states: seq<State>, ops: seq<Op>, k: nat)
    requires IsRun(states, ops) && k < |states|
    ensures forall j :: 0 <= j <= k ==> Good(states[j])
    decreases k
  {
    if k > 0 {
      RunsAreGood(states, ops, k - 1);
      assert IsStep(states[k - 1], ops[k - 1], states[(k - 1) + 1]);
      StepKeepsGood(states[k - 1], ops[k - 1]);
    }
  }

  // The branches of a run are branches of a session: each entry hangs under the one before
  // it, so that replaying a branch gives the branch.
  ghost predicate Chained(path: seq<Entry>) {
    IsChain(path) && (path != [] ==> path[0].parentId == None)
  }

  ghost predicate AllChained(s: State) {
    Chained(s.path) && forall k :: 0 <= k < |s.known| ==> Chained(s.known[k])
  }

  lemma StepKeepsChained(s: State, op: Op)
    requires Enabled(s, op) && AllChained(s)
    ensures AllChained(Step(s, op))
  {
    var to := Step(s, op).path;
    match op
    case Say(id, m) => ExtendKeepsChained(s.path, id, MessageEntry(m));
    case Note(id, kind) => ExtendKeepsChained(s.path, id, kind);
    case Compact(id, p, summary, tokens, saved) => ExtendKeepsChained(s.path, id, Compaction(summary, FirstKeptId(s.path, p), tokens));
    case Resume(_) =>
    case Graft(k, id, kind) => ExtendKeepsChained(s.known[k], id, kind);
  }

  lemma ExtendKeepsChained(path: seq<Entry>, id: string, kind: EntryKind)
    requires Chained(path)
    ensures Chained(Extend(path, id, kind))
  {
  }

  lemma {:induction false} RunsAreChained(states: seq<State>, ops: seq<Op>, k: nat)
    requires IsRun(states, ops) && k < |states|
    ensures forall j :: 0 <= j <= k ==> AllChained(states[j])
    decreases k
  {
    if k > 0 {
      RunsAreChained(states, ops, k - 1);
      assert IsStep(states[k - 1], ops[k - 1], states[(k - 1) + 1]);
      StepKeepsChained(states[k - 1], ops[k - 1]);
    }
  }

  lemma BranchReplays(path: seq<Entry>)
    requires UniqueIds(path) && Chained(path)
    ensures WellFormed(path)
    ensures path != [] ==> Branch(path, Some(path[|path| - 1].id)) == path
  {
    forall i, j | 0 <= i < |path| && 0 <= j < |path| && path[i].parentId == Some(path[j].id)
      ensures j < i
    {
      assert path[i].parentId == Some(path[i - 1].id);
    }
    if path != [] {
      var n := |path| - 1;
      PathReplaysAsItself(path, n);
      IdsAreIndexed(path, n);
      assert path[..n + 1] == path;
    }
  }

  lemma {:induction false} EveryBranchReplays(states: seq<State>, ops: seq<Op>)
    requires IsRun(states, ops)
    ensures forall k :: 0 <= k < |states| ==> var path := states[k].path;
      WellFormed(path) && (path != [] ==> Branch(path, Some(path[|path| - 1].id)) == path)
  {
    RunsAreGood(states, ops, |ops|);
    RunsAreChained(states, ops, |ops|);
    forall k | 0 <= k < |states|
      ensures var path := states[k].path; WellFormed(path) && (path != [] ==> Branch(path, Some(path[|path| - 1].id)) == path)
    {
      assert Good(states[k]) && AllChained(states[k]);
      BranchReplays(states[k].path);
    }
  }

  ghost predicate IsSuffix(t: seq<AgentMessage>, u: seq<AgentMessage>) {
    |t| <= |u| && t == u[|u| - |t|..]
  }

  // The live transcript, behind its summary, is a suffix of the one a resume would rebuild
  // behind its own; before any compaction the two are the same.
  ghost predicate LosesNothing(s: State) {
    if s.summarized then s.live != [] && IsSuffix(s.live[1..], ContextMessages(s.path)[|Head(s.path)|..])
    else s.live == ContextMessages(s.path)
  }

  // No kept message is lost on resume, at every point of every run.
  lemma {:induction false} ResumeLosesNothing(states: seq<State>, ops: seq<Op>)
    requires IsRun(states, ops)
    ensures forall k :: 0 <= k < |states| ==> LosesNothing(states[k])
  {
    RunsAreGood(states, ops, |ops|);
    forall k | 0 <= k < |states|
      ensures LosesNothing(states[k])
    {
      var s := states[k];
      var all := AllMessages(s.path);
      assert Good(s);
      RebuiltIsHeadAndTail(s.path);
      assert ContextMessages(s.path)[|Head(s.path)|..] == all[Boundary(s.path)..];
      if s.summarized {
        assert all[s.dropped..] == all[Boundary(s.path)..][s.dropped - Boundary(s.path)..];
      }
    }
  }

  // How many of the branch's messages the live transcript leaves out after a compaction.
  function DroppedAfter(s: State, p: nat): int {
    if s.summarized then s.dropped + p - 1 else p
  }

  // A saved compaction resumes exactly when the entry it records has as many messages before
  // it as the live transcript now stands for, whatever came before.
  lemma {:induction false} CompactionExactIff(s: State, op: Op)
    requires Good(s) && op.Compact? && op.saved && Enabled(s, op)
    ensures s.path != []
    ensures ContextMessages(Step(s, op).path) == Step(s, op).live
       <==> MessageCount(s.path, KeptAt(s.path, op.prefixLen)) == DroppedAfter(s, op.prefixLen)
    ensures |ContextMessages(Step(s, op).path)| - |Step(s, op).live|
         == DroppedAfter(s, op.prefixLen) - MessageCount(s.path, KeptAt(s.path, op.prefixLen)) >= 0
  {
    var p := op.prefixLen;
    var e := SavedEntry(s, op);
    var summary := Custom(CompactionSummary(op.summary, op.tokensBefore));
    KeptBeforeDropped(s, p);
    SavedRebuild(s, p, e);
    CompactedLive(s, p, summary);
    SameTailIff(summary, AllMessages(s.path), MessageCount(s.path, KeptAt(s.path, p)), DroppedAfter(s, p), [summary] + s.live[p..]);
  }

  lemma {:induction false} SavedEntry(s: State, op: Op) returns (e: Entry)
    requires op.Compact? && op.saved && 2 <= op.prefixLen <= |s.live|
    ensures e.kind == Compaction(op.summary, FirstKeptId(s.path, op.prefixLen), op.tokensBefore)
    ensures Step(s, op).path == s.path + [e]
    ensures Step(s, op).live == [Custom(CompactionSummary(op.summary, op.tokensBefore))] + s.live[op.prefixLen..]
  {
    e := Step(s, op).path[|s.path|];
  }

  // What a resume rebuilds from a saved compaction.
  lemma {:induction false} SavedRebuild(s: State, p: nat, e: Entry)
    requires Good(s) && 2 <= p <= |s.live| && s.path != []
    requires e.kind.Compaction? && e.kind.firstKeptEntryId == FirstKeptId(s.path, p)
    ensures MessageCount(s.path, KeptAt(s.path, p)) <= |AllMessages(s.path)|
    ensures ContextMessages(s.path + [e]) == [Custom(CompactionSummary(e.kind.summary, e.kind.tokensBefore))]
      + AllMessages(s.path)[MessageCount(s.path, KeptAt(s.path, p))..]
  {
    var path, all := s.path, s.path + [e];
    KeptBeforeDropped(s, p);
    ExtendMessages(path, e);
    ExtendBoundary(path, e);
    FirstKeptIsFound(path, p);
    RebuiltIsHeadAndTail(all);
    assert all[|path|] == e;
  }

  lemma SameTailIff(head: AgentMessage, all: seq<AgentMessage>, kept: nat, dropped: nat, live: seq<AgentMessage>)
    requires kept <= dropped <= |all| && live != [] && live[0] == head && live[1..] == all[dropped..]
    ensures [head] + all[kept..] == live <==> kept == dropped
    ensures |[head] + all[kept..]| - |live| == dropped - kept
  {
    assert live == [head] + live[1..];
  }

  // The first compaction resumes exactly, provided no empty branch summary lies among the
  // entries it folded, or, when it folded everything, the leaf carries no message.
  lemma FirstCompactionExactIff(s: State, op: Op)
    requires Good(s) && op.Compact? && op.saved && Enabled(s, op)
    requires !s.summarized
    ensures s.path != []
    ensures ContextMessages(Step(s, op).path) == Step(s, op).live
       <==> match NthContributor(s.path, op.prefixLen, |s.path|)
            case Some(at) => !BareBefore(s.path, at)
            case None => MessagesOf(s.path[|s.path| - 1]) == []
  {
    CompactionExactIff(s, op);
    FirstKeptCount(s, op.prefixLen);
  }

  lemma FirstKeptCount(s: State, p: nat)
    requires Good(s) && 2 <= p <= |s.live| && !s.summarized
    ensures s.path != []
    ensures MessageCount(s.path, KeptAt(s.path, p)) == p
       <==> match NthContributor(s.path, p, |s.path|)
            case Some(at) => !BareBefore(s.path, at)
            case None => MessagesOf(s.path[|s.path| - 1]) == []
  {
    KeptBeforeDropped(s, p);
    MessagesAgainstContributors(s.path, KeptAt(s.path, p));
    MessagesAgainstContributors(s.path, |s.path|);
  }

  // A later compaction hardly ever does: once the live transcript stands for two dropped
  // messages or more, compacting it again makes a resume bring summarized messages back.
  lemma LaterCompactionAlwaysDrifts(s: State, op: Op)
    requires Good(s) && op.Compact? && op.saved && Enabled(s, op)
    requires s.summarized && s.dropped >= 2
    ensures |ContextMessages(Step(s, op).path)| > |Step(s, op).live|
  {
    CompactionExactIff(s, op);
    MessagesAgainstContributors(s.path, KeptAt(s.path, op.prefixLen));
    MessagesAgainstContributors(s.path, |s.path|);
  }
}
