// Where a transcript may be cut, and the two policies that choose the cut
// (grain-agent-harness/src/compaction.rs).
module Compaction {
  import opened Messages
  import opened TokenEstimates

  // A cut before message c that starts no tail on a result and leaves no call at the
  // end of the prefix. Cutting at the end is always safe.
  ghost predicate SafeCut(ms: seq<AgentMessage>, c: nat) {
    c < |ms| ==> !IsToolResult(ms[c]) && (c > 0 ==> !HasToolCall(ms[c - 1]))
  }

  // cut is the least safe cut from `from` on.
  ghost predicate IsSnap(ms: seq<AgentMessage>, from: nat, cut: nat) {
    && from <= cut
    && SafeCut(ms, cut)
    && (forall c: nat :: from <= c < cut ==> !SafeCut(ms, c))
  }

  method SnapToSafeBoundary(ms: seq<AgentMessage>, prefixLen: nat) returns (cut: nat)
    ensures IsSnap(ms, prefixLen, cut)
    ensures prefixLen <= |ms| ==> cut <= |ms|
  {
    cut := prefixLen;
    while cut < |ms|
      invariant prefixLen <= cut
      invariant prefixLen <= |ms| ==> cut <= |ms|
      invariant forall c: nat :: prefixLen <= c < cut ==> !SafeCut(ms, c)
    {
      if IsToolResult(ms[cut]) {
        cut := cut + 1;
        continue;
      }
      if cut > 0 && ms[cut - 1].Standard? && ms[cut - 1].message.Assistant? {
        var calls := Calls(ms[cut - 1].message.assistant.content);
        if calls != [] {
          assert Call(calls[0]) in ms[cut - 1].message.assistant.content;
          cut := cut + 1;
          continue;
        }
      }
      break;
    }
  }

  // A cut separates a call from one of its results.
  ghost predicate SeparatesPair(ms: seq<AgentMessage>, cut: nat) {
    exists j: nat, i: nat :: j < cut <= i < |ms| && Owns(ms, j, i)
  }

  // On the transcripts the loop writes, a cut separates a pair exactly when the tail it
  // leaves starts with a result.
  lemma SeparatesPairIff(ms: seq<AgentMessage>, cut: nat)
    requires DirectlyAnswered(ms)
    ensures SeparatesPair(ms, cut) <==> cut < |ms| && IsToolResult(ms[cut])
  {
    if cut < |ms| && IsToolResult(ms[cut]) {
      assert Answered(ms, cut);
    }
    if SeparatesPair(ms, cut) {
      var j: nat, i: nat :| j < cut <= i < |ms| && Owns(ms, j, i);
      assert IsToolResult(ms[cut]);
    }
  }

  // Snapping makes both halves of such a transcript such transcripts again, with no pair
  // across the cut and no call waiting at the end of the prefix.
  lemma SnapKeepsPairsTogether(ms: seq<AgentMessage>, from: nat, cut: nat)
    requires DirectlyAnswered(ms) && from <= |ms| && IsSnap(ms, from, cut)
    ensures cut <= |ms|
    ensures DirectlyAnswered(ms[..cut]) && DirectlyAnswered(ms[cut..])
    ensures !SeparatesPair(ms, cut)
    ensures 0 < cut < |ms| ==> !HasToolCall(ms[cut - 1])
  {
    SnapStaysInside(ms, from, cut);
    PrefixKeepsPairing(ms, cut);
    SuffixKeepsPairing(ms, cut);
    SeparatesPairIff(ms, cut);
  }

  lemma SnapStaysInside(ms: seq<AgentMessage>, from: nat, cut: nat)
    requires from <= |ms| && IsSnap(ms, from, cut)
    ensures cut <= |ms|
  {
    if cut > |ms| {
      assert SafeCut(ms, |ms|);
    }
  }

  lemma SnapUnique(ms: seq<AgentMessage>, from: nat, a: nat, b: nat)
    requires IsSnap(ms, from, a) && IsSnap(ms, from, b)
    ensures a == b
  {
  }

  // Snapping twice is snapping once: `compact_transcript` re-snaps a cut its callers
  // already snapped and must land on the same one.
  lemma SnapIdempotent(ms: seq<AgentMessage>, from: nat, a: nat, b: nat)
    requires IsSnap(ms, from, a) && IsSnap(ms, a, b)
    ensures a == b
  {
  }

  // ---- What a compaction leaves ----------------------------------------------------

  function Compacted(ms: seq<AgentMessage>, cut: nat, summary: string, tokensBefore: nat): (out: seq<AgentMessage>)
    requires cut <= |ms|
  {
    [Custom(CompactionSummary(summary, tokensBefore))] + ms[cut..]
  }

  // The summarizer either yields text or nothing usable; nothing usable changes nothing.
  method CompactTranscript(ms: seq<AgentMessage>, prefixLen: nat, summary: Option<string>, est: Estimator)
    returns (out: Option<seq<AgentMessage>>)
    requires prefixLen <= |ms|
    ensures out.Some? <==> summary.Some?
    ensures summary.Some? ==>
              exists cut: nat :: cut <= |ms| && IsSnap(ms, prefixLen, cut) &&
                                 |out.value| == 1 + |ms| - cut && out.value[1..] == ms[cut..] &&
                                 out.value[0] == Custom(CompactionSummary(summary.value, est.ContentTokens(ms[..cut])))
  {
    var cut := SnapToSafeBoundary(ms, prefixLen);
    match summary
    case None => out := None;
    case Some(text) => out := Some(Compacted(ms, cut, text, est.ContentTokens(ms[..cut])));
  }

  lemma CompactedKeepsPairing(ms: seq<AgentMessage>, from: nat, cut: nat, summary: string, tokens: nat)
    requires DirectlyAnswered(ms) && from <= |ms| && IsSnap(ms, from, cut)
    ensures cut <= |ms| && DirectlyAnswered(Compacted(ms, cut, summary, tokens))
  {
    SnapKeepsPairsTogether(ms, from, cut);
    var out := Compacted(ms, cut, summary, tokens);
    var tail := ms[cut..];
    forall i: nat | i < |out| && IsToolResult(out[i])
      ensures Answered(out, i)
    {
      assert out[i] == tail[i - 1];
      assert Answered(tail, i - 1);
      var j: nat :| j < i - 1 && Owns(tail, j, i - 1);
      assert Owns(out, j + 1, i);
    }
  }

  // A run of compactions with no message in between; each folds at least two messages.
  ghost predicate IsCompactionRun(states: seq<seq<AgentMessage>>) {
    forall k: nat :: k + 1 < |states| ==> CompactsTo(states[k], states[k + 1])
  }

  ghost predicate CompactsTo(before: seq<AgentMessage>, after: seq<AgentMessage>) {
    exists cut: nat, summary, tokens ::
      2 <= cut <= |before| && after == Compacted(before, cut, summary, tokens)
  }

  // So compacting without new messages stops: the run is no longer than the transcript.
  lemma {:induction false} CompactionRunBounded(states: seq<seq<AgentMessage>>)
    requires states != [] && IsCompactionRun(states)
    ensures |states| <= |states[0]| + 1
    ensures |states| > 1 ==> |states| <= |states[0]|
    decreases |states|
  {
    if |states| > 1 {
      assert CompactsTo(states[0], states[0 + 1]);
      forall k: nat | k + 1 < |states[1..]|
        ensures CompactsTo(states[1..][k], states[1..][k + 1])
      {
        assert CompactsTo(states[k + 1], states[k + 1 + 1]);
      }
      CompactionRunBounded(states[1..]);
    }
  }

  // ---- Message-count policy ---------------------------------------------------------

  function MessageCountCut(threshold: nat, keepRecent: nat, length: nat): (cut: Option<nat>)
    ensures cut.Some? ==> 2 <= cut.value <= length && length >= threshold
    ensures cut.Some? ==> length - cut.value == if keepRecent <= length then keepRecent else 0
    ensures cut.None? <==> length < threshold || length < keepRecent + 2
  {
    if length < threshold then None
    else
      var prefixLen := if length >= keepRecent then length - keepRecent else 0;
      if prefixLen < 2 then None else Some(prefixLen)
  }

  function Asks(id: string): AgentMessage {
    Standard(Assistant(AssistantMessage([Call(ToolCall(id, "bash", ""))], "p", "m", ToolUse, None)))
  }

  function Answers(id: string): AgentMessage {
    Standard(ToolResult(ToolResultMessage(id, "bash", [], false)))
  }

  function Says(text: string): AgentMessage {
    Standard(User([UserText(text)]))
  }

  // This policy does not snap and neither does the hook that runs it: here the cut falls
  // between a call and its result. By SeparatesPairIff it does so exactly when the first
  // kept message is a result.
  lemma MessageCountCutMaySeparate()
    ensures var ms := [Says("hi"), Asks("c1"), Answers("c1")];
            && DirectlyAnswered(ms)
            && MessageCountCut(3, 1, |ms|) == Some(2)
            && SeparatesPair(ms, 2)
  {
    var ms := [Says("hi"), Asks("c1"), Answers("c1")];
    assert Call(ToolCall("c1", "bash", "")) in ms[1].message.assistant.content;
    assert Owns(ms, 1, 2);
    assert Answered(ms, 2);
  }

  // ---- Token-budget policy ----------------------------------------------------------

  datatype CompactionSettings = CompactionSettings(
    enabled: bool,
    thresholdTokens: int,
    thresholdPercent: int,
    reserveTokens: nat,
    keepRecentTokens: nat)

  function Max(a: nat, b: nat): nat { if a >= b then a else b }

  function Clamp(x: nat, lo: nat, hi: nat): (r: nat)
    requires lo <= hi
    ensures lo <= r <= hi
  {
    if x < lo then lo else if x > hi then hi else x
  }

  function SaturatingSub(a: nat, b: nat): nat { if a >= b then a - b else 0 }

  function ResolveThreshold(window: nat, s: CompactionSettings): (t: nat)
    ensures t <= Max(window, 1)
    ensures s.thresholdTokens > 0 || 1 <= s.thresholdPercent <= 99 ==> 1 <= t <= Max(SaturatingSub(window, 1), 1)
  {
    if s.thresholdTokens > 0 then
      Clamp(s.thresholdTokens, 1, Max(SaturatingSub(window, 1), 1))
    else if 1 <= s.thresholdPercent <= 99 then
      Clamp(window * s.thresholdPercent / 100, Max(window / 100, 1), Max(window * 99 / 100, 1))
    else
      SaturatingSub(window, Max(window * 15 / 100, s.reserveTokens))
  }

  predicate ShouldCompact(tokens: nat, window: nat, s: CompactionSettings) {
    s.enabled && window != 0 && tokens > ResolveThreshold(window, s)
  }

  // When compaction is due: never when it is off or the window is unknown; above a fixed
  // number of tokens, or when the window is full; above a percentage of the window; or when
  // there is no room left for the reserve, or less than 15% of the window is free. One
  // token alone is only ever too many for the reserve.
  ghost predicate IsDue(tokens: nat, window: Option<nat>, s: CompactionSettings) {
    && s.enabled && window.Some? && window.value > 0
    && var w := window.value;
    if s.thresholdTokens > 0 then tokens > s.thresholdTokens || (tokens >= w && tokens > 1)
    else if 1 <= s.thresholdPercent <= 99 then 100 * tokens > s.thresholdPercent * w && tokens > 1
    else tokens > 0 && (tokens + s.reserveTokens > w || tokens > w - w * 15 / 100)
  }

  lemma ShouldCompactIff(tokens: nat, window: nat, s: CompactionSettings)
    ensures ShouldCompact(tokens, window, s) <==> IsDue(tokens, Some(window), s)
  {
    if s.thresholdTokens <= 0 && 1 <= s.thresholdPercent <= 99 {
      PercentWithinWindow(window, s.thresholdPercent);
    }
  }

  lemma PercentWithinWindow(window: nat, percent: int)
    requires 1 <= percent <= 99
    ensures window / 100 <= window * percent / 100 <= window * 99 / 100
    ensures forall tokens: nat :: tokens > window * percent / 100 <==> 100 * tokens > percent * window
  {
    TimesAtMost(window, percent, 99);
    TimesAtMost(window, 1, percent);
    HundredthsOf(window, window * percent);
  }

  lemma TimesAtMost(window: nat, a: int, b: int)
    requires a <= b
    ensures window * a <= window * b
  {
  }

  lemma HundredthsOf(window: nat, share: nat)
    requires window <= share <= 99 * window
    ensures window / 100 <= share / 100 <= window * 99 / 100
    ensures forall tokens: nat :: tokens > share / 100 <==> 100 * tokens > share
  {
  }

  // Walking back from the end, the tail has enough tokens at w and w is not pinned, or
  // the walk ran out of messages.
  ghost predicate IsWalkStart(costs: seq<nat>, pinned: seq<bool>, keepRecent: nat, w: nat)
    requires |costs| == |pinned|
  {
    && (if costs == [] then w == 0 else w < |costs|)
    && (forall i: nat :: w < i < |costs| ==> SumFrom(costs, i) < keepRecent || pinned[i])
    && (w > 0 ==> SumFrom(costs, w) >= keepRecent && !pinned[w])
  }

  // Every pinned message before w pulls the boundary back to it.
  ghost predicate IsPulledTo(pinned: seq<bool>, w: nat, s: nat)
    requires w <= |pinned|
  {
    && s <= w
    && (forall i: nat :: i < s ==> !pinned[i])
    && (s < w ==> pinned[s])
  }

  ghost predicate IsBudgetCut(ms: seq<AgentMessage>, costs: seq<nat>, pinned: seq<bool>, keepRecent: nat, cut: nat)
    requires |ms| == |costs| == |pinned|
  {
    exists w: nat, s: nat ::
      IsWalkStart(costs, pinned, keepRecent, w) && w <= |ms| && IsPulledTo(pinned, w, s) && IsSnap(ms, s, cut)
  }

  lemma BudgetCutUnique(ms: seq<AgentMessage>, costs: seq<nat>, pinned: seq<bool>, keepRecent: nat, a: nat, b: nat)
    requires |ms| == |costs| == |pinned|
    requires IsBudgetCut(ms, costs, pinned, keepRecent, a) && IsBudgetCut(ms, costs, pinned, keepRecent, b)
    ensures a == b
  {
    var w1: nat, s1: nat :| IsWalkStart(costs, pinned, keepRecent, w1) && w1 <= |ms|
                            && IsPulledTo(pinned, w1, s1) && IsSnap(ms, s1, a);
    var w2: nat, s2: nat :| IsWalkStart(costs, pinned, keepRecent, w2) && w2 <= |ms|
                            && IsPulledTo(pinned, w2, s2) && IsSnap(ms, s2, b);
    assert w1 == w2;
    assert s1 == s2;
  }

  // The window is unknown for an unregistered model, and then nothing is compacted.
  // Otherwise a cut is proposed exactly when the transcript is over its threshold and the
  // budget cut folds at least two messages, and it never separates a pair.
  method Evaluate(ms: seq<AgentMessage>, est: Estimator, pinned: seq<bool>, window: Option<nat>, settings: CompactionSettings)
    returns (cut: Option<nat>)
    requires |pinned| == |ms|
    ensures cut.Some? ==> && IsDue(est.EstimateMessages(ms), window, settings)
                          && 2 <= cut.value <= |ms|
                          && SafeCut(ms, cut.value)
                          && IsBudgetCut(ms, est.Costs(ms), pinned, settings.keepRecentTokens, cut.value)
    ensures cut.None? && IsDue(est.EstimateMessages(ms), window, settings) ==>
              exists c: nat :: c < 2 && IsBudgetCut(ms, est.Costs(ms), pinned, settings.keepRecentTokens, c)
  {
    if window.None? {
      return None;
    }
    ShouldCompactIff(est.EstimateMessages(ms), window.value, settings);
    if !ShouldCompact(est.EstimateMessages(ms), window.value, settings) {
      return None;
    }
    var costs := est.Costs(ms);
    var tailTokens := 0;
    var keepStart := |ms|;
    var i := |ms|;
    while i > 0
      invariant 0 <= i <= |ms|
      invariant keepStart == i
      invariant tailTokens == SumFrom(costs, i)
      invariant forall k: nat :: i <= k < |ms| ==> SumFrom(costs, k) < settings.keepRecentTokens || pinned[k]
    {
      i := i - 1;
      tailTokens := tailTokens + costs[i];
      keepStart := i;
      if tailTokens >= settings.keepRecentTokens && !pinned[i] {
        break;
      }
    }
    ghost var w := keepStart;
    assert IsWalkStart(costs, pinned, settings.keepRecentTokens, w);
    i := keepStart;
    while i > 0
      invariant 0 <= i <= w
      invariant i <= keepStart <= w
      invariant keepStart < w ==> pinned[keepStart]
      invariant forall k: nat :: i <= k < keepStart ==> !pinned[k]
    {
      i := i - 1;
      if pinned[i] {
        keepStart := i;
      }
    }
    assert IsPulledTo(pinned, w, keepStart);
    var snapped := SnapToSafeBoundary(ms, keepStart);
    assert IsBudgetCut(ms, costs, pinned, settings.keepRecentTokens, snapped);
    if snapped < 2 {
      return None;
    }
    return Some(snapped);
  }

  // The cut keeps at least the requested recent tokens before snapping: without pins the
  // tail from the walk start is the shortest one that has them.
  lemma WalkStartIsShortestTail(costs: seq<nat>, pinned: seq<bool>, keepRecent: nat, w: nat, i: nat)
    requires |costs| == |pinned| && IsWalkStart(costs, pinned, keepRecent, w)
    requires forall k :: 0 <= k < |pinned| ==> !pinned[k]
    requires i < |costs|
    ensures w < i <==> SumFrom(costs, i) < keepRecent && (w > 0 || i > 0)
  {
    if i <= w {
      SumFromAntitone(costs, i, w);
    }
  }

  ghost predicate PinsKept(pinned: seq<bool>, cut: nat) {
    forall i: nat :: i < |pinned| && pinned[i] ==> cut <= i
  }

  // Pinning is meant to keep a message out of the summary, but the snap comes last and
  // moves forward. The pins survive exactly when no pinned message lies between the boundary
  // and the first safe cut behind it, be the boundary a pin or an unpinned walk start.
  lemma PinsKeptIff(ms: seq<AgentMessage>, pinned: seq<bool>, w: nat, s: nat, cut: nat)
    requires |pinned| == |ms| && w <= |ms|
    requires IsPulledTo(pinned, w, s) && IsSnap(ms, s, cut)
    ensures PinsKept(pinned, cut) <==>
      forall i: nat :: s <= i < |ms| && pinned[i] ==> exists c: nat :: s <= c <= i && SafeCut(ms, c)
    ensures s < |ms| && pinned[s] ==> (PinsKept(pinned, cut) <==> SafeCut(ms, s))
  {
    if PinsKept(pinned, cut) {
      forall i: nat | s <= i < |ms| && pinned[i]
        ensures exists c: nat :: s <= c <= i && SafeCut(ms, c)
      {
        assert cut <= i && SafeCut(ms, cut);
      }
    }
  }

  lemma PinnedMessageMayBeSummarized()
    ensures var ms := [Says("hi"), Asks("c1"), Answers("c1"), Says("ok"), Says("go")];
            var pinned := [false, false, true, false, false];
            && IsBudgetCut(ms, [1, 1, 1, 1, 1], pinned, 1, 3)
            && !PinsKept(pinned, 3)
  {
    var ms := [Says("hi"), Asks("c1"), Answers("c1"), Says("ok"), Says("go")];
    var pinned := [false, false, true, false, false];
    var costs := [1, 1, 1, 1, 1];
    assert SumFrom(costs, 4) == 1;
    assert IsWalkStart(costs, pinned, 1, 4);
    assert IsPulledTo(pinned, 4, 2);
    assert SafeCut(ms, 3);
    assert IsSnap(ms, 2, 3);
    assert pinned[2];
  }

  // It happens without a pinned boundary too: the walk stops between a call's results, and
  // the snap passes the pinned one behind.
  lemma PinBehindTheBoundaryMayBeSummarized()
    ensures var ms := [Says("hi"), Says("go"), Asks("c1"), Answers("c1"), Answers("c1"), Says("ok")];
            var pinned := [false, false, false, false, true, false];
            && IsBudgetCut(ms, [1, 1, 1, 1, 1, 1], pinned, 2, 5)
            && !PinsKept(pinned, 5)
  {
    var ms := [Says("hi"), Says("go"), Asks("c1"), Answers("c1"), Answers("c1"), Says("ok")];
    var pinned := [false, false, false, false, true, false];
    var costs := [1, 1, 1, 1, 1, 1];
    assert SumFrom(costs, 5) == 1;
    assert SumFrom(costs, 4) == 2;
    assert SumFrom(costs, 3) == 3;
    assert IsWalkStart(costs, pinned, 2, 3);
    assert IsPulledTo(pinned, 3, 3);
    assert SafeCut(ms, 5);
    assert IsSnap(ms, 3, 5);
    assert pinned[4];
  }

  lemma OverWindowAlwaysCompacts(tokens: nat, window: nat, s: CompactionSettings)
    requires s.enabled && window > 0
    ensures tokens > window ==> ShouldCompact(tokens, window, s)
  {
  }
}
