// Replacing old, large tool results by a placeholder (grain-agent-harness/src/pruning.rs):
// which results are candidates, the scan that finds them, the replacement in place of all of
// them or of none, and what a pruned transcript keeps.
module Pruning {
  import opened Messages
  import opened Timestamps

  datatype PruneConfig = PruneConfig(
    protectRecent: nat,
    protectedTools: seq<string>,
    minSavingsTokens: nat,
    placeholderTemplate: string)

  datatype PruneOutcome = PruneOutcome(prunedCount: nat, tokensSaved: nat)

  const PRUNED_MARKER := "[Output truncated - "
  const TOKENS := "{tokens}"
  const PLACEHOLDER_TOKENS := 10

  // Every occurrence of "{tokens}" replaced, from the left.
  function Fill(template: string, text: string): string {
    if TOKENS <= template then text + Fill(template[|TOKENS|..], text)
    else if template == [] then []
    else [template[0]] + Fill(template[1..], text)
  }

  function Placeholder(config: PruneConfig, tokens: nat): string {
    Fill(config.placeholderTemplate, Pad(tokens, 1))
  }

  predicate IsAlreadyPruned(r: ToolResultMessage) {
    |r.content| == 1 && r.content[0].UserText? && PRUNED_MARKER <= r.content[0].text
  }

  // --- Which results are pruned ---

  // The name given by the last call of this id among the first n of a message's calls, and
  // among the first n messages.
  function LastCall(calls: seq<ToolCall>, n: nat, id: string): Option<string>
    requires n <= |calls|
  {
    if n == 0 then None
    else if calls[n - 1].id == id then Some(calls[n - 1].name)
    else LastCall(calls, n - 1, id)
  }

  function CallsOf(m: AgentMessage): seq<ToolCall> {
    if m.Standard? && m.message.Assistant? then Calls(m.message.assistant.content) else []
  }

  function CallName(ms: seq<AgentMessage>, n: nat, id: string): Option<string>
    requires n <= |ms|
  {
    if n == 0 then None
    else
      var calls := CallsOf(ms[n - 1]);
      var here := LastCall(calls, |calls|, id);
      if here.Some? then here else CallName(ms, n - 1, id)
  }

  function ToolName(ms: seq<AgentMessage>, r: ToolResultMessage): string {
    var name := CallName(ms, |ms|, r.callId);
    if name.Some? then name.value else r.toolName
  }

  function ResultsAfter(ms: seq<AgentMessage>, i: nat): nat
    decreases |ms| - i
  {
    if i >= |ms| then 0 else (if IsToolResult(ms[i]) then 1 else 0) + ResultsAfter(ms, i + 1)
  }

  // A result with at least `protectRecent` results after it, of a tool that is not
  // protected, not pruned before and larger than what would replace it.
  predicate IsCandidate(ms: seq<AgentMessage>, i: nat, config: PruneConfig, estimate: AgentMessage -> nat)
    requires i < |ms|
  {
    && IsToolResult(ms[i])
    && ResultsAfter(ms, i + 1) >= config.protectRecent
    && ToolName(ms, ms[i].message.result) !in config.protectedTools
    && !IsAlreadyPruned(ms[i].message.result)
    && estimate(ms[i]) > PLACEHOLDER_TOKENS
  }

  function Flags(ms: seq<AgentMessage>, config: PruneConfig, estimate: AgentMessage -> nat): (flags: seq<bool>)
    ensures |flags| == |ms|
  {
    seq(|ms|, i requires 0 <= i < |ms| => IsCandidate(ms, i, config, estimate))
  }

  function Tokens(ms: seq<AgentMessage>, estimate: AgentMessage -> nat): (tokens: seq<nat>)
    ensures |tokens| == |ms|
  {
    seq(|ms|, i requires 0 <= i < |ms| => estimate(ms[i]))
  }

  // What replacing a result of this size saves.
  function Saving(tokens: nat): nat {
    if tokens > PLACEHOLDER_TOKENS then tokens - PLACEHOLDER_TOKENS else 0
  }

  function SavingsOf(flags: seq<bool>, tokens: seq<nat>, n: nat): nat
    requires n <= |flags| == |tokens|
  {
    if n == 0 then 0 else SavingsOf(flags, tokens, n - 1) + if flags[n - 1] then Saving(tokens[n - 1]) else 0
  }

  function CountOf(flags: seq<bool>, n: nat): nat
    requires n <= |flags|
  {
    if n == 0 then 0 else CountOf(flags, n - 1) + if flags[n - 1] then 1 else 0
  }

  // The predicted saving of a transcript, and the number of its candidates.
  function Savings(ms: seq<AgentMessage>, config: PruneConfig, estimate: AgentMessage -> nat): nat {
    SavingsOf(Flags(ms, config, estimate), Tokens(ms, estimate), |ms|)
  }

  function Candidates(ms: seq<AgentMessage>, config: PruneConfig, estimate: AgentMessage -> nat): nat {
    CountOf(Flags(ms, config, estimate), |ms|)
  }

  function Replaced(r: ToolResultMessage, config: PruneConfig, tokens: nat): AgentMessage {
    Standard(ToolResult(r.(content := [UserText(Placeholder(config, tokens))])))
  }

  function PrunedAt(m: AgentMessage, flag: bool, config: PruneConfig, tokens: nat): AgentMessage {
    if flag && IsToolResult(m) then Replaced(m.message.result, config, tokens) else m
  }

  // All the candidates, or none when together they would not save enough.
  function Pruned(ms: seq<AgentMessage>, config: PruneConfig, estimate: AgentMessage -> nat): (out: seq<AgentMessage>)
    ensures |out| == |ms|
  {
    if Savings(ms, config, estimate) < config.minSavingsTokens then ms
    else
      var flags, tokens := Flags(ms, config, estimate), Tokens(ms, estimate);
      seq(|ms|, i requires 0 <= i < |ms| => PrunedAt(ms[i], flags[i], config, tokens[i]))
  }

  // --- The procedure ---

  ghost predicate IsNameMap(names: map<string, string>, ms: seq<AgentMessage>, n: nat)
    requires n <= |ms|
  {
    forall id :: CallName(ms, n, id) == if id in names then Some(names[id]) else None
  }

  method BuildToolNameMap(ms: seq<AgentMessage>) returns (names: map<string, string>)
    ensures IsNameMap(names, ms, |ms|)
  {
    names := map[];
    for n := 0 to |ms|
      invariant IsNameMap(names, ms, n)
    {
      names := AddCalls(CallsOf(ms[n]), names);
    }
  }

  method AddCalls(calls: seq<ToolCall>, before: map<string, string>) returns (names: map<string, string>)
    ensures forall id ::
      (if id in names then Some(names[id]) else None)
      == if LastCall(calls, |calls|, id).Some? then LastCall(calls, |calls|, id)
         else if id in before then Some(before[id]) else None
  {
    names := before;
    for k := 0 to |calls|
      invariant forall id :: LastCall(calls, k, id).Some? ==> id in names && names[id] == LastCall(calls, k, id).value
      invariant forall id :: LastCall(calls, k, id).None? ==> (id in names <==> id in before) && (id in names ==> names[id] == before[id])
    {
      names := names[calls[k].id := calls[k].name];
    }
  }

  // --- Positions ---

  // The positions before n that are flagged, in order.
  function Positions(flags: seq<bool>, n: nat): seq<nat>
    requires n <= |flags|
  {
    if n == 0 then [] else Positions(flags, n - 1) + if flags[n - 1] then [n - 1] else []
  }

  // The stretch before the jth position starts after the one before it.
  function From(ps: seq<nat>, j: nat): nat
    requires j <= |ps|
  {
    if j == 0 then 0 else ps[j - 1] + 1
  }

  function To(ps: seq<nat>, j: nat, n: nat): nat
    requires j <= |ps|
  {
    if j < |ps| then ps[j] else n
  }

  ghost predicate IsGap(flags: seq<bool>, lo: nat, hi: nat) {
    lo <= hi <= |flags| && forall i :: lo <= i < hi ==> !flags[i]
  }

  // Between any two positions, before the first and after the last nothing before n is
  // flagged.
  ghost predicate GapAt(flags: seq<bool>, ps: seq<nat>, j: nat, n: nat)
    requires j <= |ps|
  {
    && n <= |flags|
    && IsGap(flags, From(ps, j), To(ps, j, n))
    && (j < |ps| ==> ps[j] < n && flags[ps[j]])
  }

  lemma {:induction false} GapsBetween(flags: seq<bool>, n: nat)
    requires n <= |flags|
    ensures forall j: nat :: j <= |Positions(flags, n)| ==> GapAt(flags, Positions(flags, n), j, n)
  {
    if n > 0 {
      GapsBetween(flags, n - 1);
      var before, ps := Positions(flags, n - 1), Positions(flags, n);
      forall j: nat | j <= |ps|
        ensures GapAt(flags, ps, j, n)
      {
        assert j <= |before| ==> GapAt(flags, before, j, n - 1);
      }
    }
  }

  ghost predicate Gapless(flags: seq<bool>, ps: seq<nat>) {
    forall j: nat :: j <= |ps| ==> GapAt(flags, ps, j, |flags|)
  }

  lemma {:induction false} GapSaves(flags: seq<bool>, tokens: seq<nat>, lo: nat, hi: nat)
    requires |flags| == |tokens| && IsGap(flags, lo, hi)
    ensures SavingsOf(flags, tokens, hi) == SavingsOf(flags, tokens, lo) && CountOf(flags, hi) == CountOf(flags, lo)
    ensures Positions(flags, hi) == Positions(flags, lo)
    decreases hi - lo
  {
    if lo < hi {
      GapSaves(flags, tokens, lo, hi - 1);
    }
  }

  function ResultFlags(ms: seq<AgentMessage>): (flags: seq<bool>) {
    seq(|ms|, i requires 0 <= i < |ms| => IsToolResult(ms[i]))
  }

  method ToolResultIndices(ms: seq<AgentMessage>) returns (indices: seq<nat>)
    ensures Gapless(ResultFlags(ms), indices)
  {
    indices := [];
    for i := 0 to |ms|
      invariant indices == Positions(ResultFlags(ms), i)
    {
      if IsToolResult(ms[i]) {
        indices := indices + [i];
      }
    }
    GapsBetween(ResultFlags(ms), |ms|);
  }

  lemma {:induction false} NoResultsIn(ms: seq<AgentMessage>, lo: nat, hi: nat)
    requires IsGap(ResultFlags(ms), lo, hi)
    ensures ResultsAfter(ms, lo) == ResultsAfter(ms, hi)
    ensures forall i :: lo <= i < hi ==> !IsToolResult(ms[i])
    decreases hi - lo
  {
    if lo < hi {
      assert !ResultFlags(ms)[lo];
      NoResultsIn(ms, lo + 1, hi);
    }
  }

  // How many results lie beyond the first j.
  lemma {:induction false} ResultsBeyond(ms: seq<AgentMessage>, ps: seq<nat>, j: nat)
    requires Gapless(ResultFlags(ms), ps) && j <= |ps|
    ensures ResultsAfter(ms, From(ps, j)) == |ps| - j
    decreases |ps| - j
  {
    var flags := ResultFlags(ms);
    assert GapAt(flags, ps, j, |flags|);
    NoResultsIn(ms, From(ps, j), To(ps, j, |ms|));
    if j < |ps| {
      ResultsBeyond(ms, ps, j + 1);
      assert ResultsAfter(ms, ps[j]) == 1 + ResultsAfter(ms, ps[j] + 1);
    }
  }

  // --- Picking ---

  // What the scan records for a candidate.
  datatype Candidate = Candidate(index: nat, tokens: nat)

  ghost predicate IsPicked(flags: seq<bool>, tokens: seq<nat>, picked: seq<Candidate>, n: nat)
    requires n <= |flags| == |tokens|
  {
    && |picked| == |Positions(flags, n)|
    && forall j :: 0 <= j < |picked| ==>
      picked[j].index == Positions(flags, n)[j] < |tokens| && picked[j].tokens == tokens[picked[j].index]
  }

  // Skips the protected, pruned and small ones among the older results.
  method Consider(ms: seq<AgentMessage>, names: map<string, string>, i: nat, config: PruneConfig, estimate: AgentMessage -> nat)
    returns (take: bool, tokens: nat)
    requires i < |ms| && IsToolResult(ms[i]) && IsNameMap(names, ms, |ms|)
    requires ResultsAfter(ms, i + 1) >= config.protectRecent
    ensures take == Flags(ms, config, estimate)[i] && tokens == Tokens(ms, estimate)[i]
    ensures take ==> tokens > PLACEHOLDER_TOKENS
  {
    var r := ms[i].message.result;
    var name := if r.callId in names then names[r.callId] else r.toolName;
    assert name == ToolName(ms, r);
    tokens := estimate(ms[i]);
    take := name !in config.protectedTools && !IsAlreadyPruned(r) && tokens > PLACEHOLDER_TOKENS;
  }

  lemma OnlyResultsFlagged(ms: seq<AgentMessage>, config: PruneConfig, estimate: AgentMessage -> nat, lo: nat, hi: nat)
    requires IsGap(ResultFlags(ms), lo, hi)
    ensures IsGap(Flags(ms, config, estimate), lo, hi)
  {
    NoResultsIn(ms, lo, hi);
  }

  // The results the scan leaves out at the end are protected for being recent.
  lemma {:induction false} RecentNotFlagged(ms: seq<AgentMessage>, config: PruneConfig, estimate: AgentMessage -> nat, ps: seq<nat>, j: nat)
    requires Gapless(ResultFlags(ms), ps) && j <= |ps| <= j + config.protectRecent
    ensures IsGap(Flags(ms, config, estimate), From(ps, j), |ms|)
    decreases |ps| - j
  {
    assert GapAt(ResultFlags(ms), ps, j, |ResultFlags(ms)|);
    OnlyResultsFlagged(ms, config, estimate, From(ps, j), To(ps, j, |ms|));
    if j < |ps| {
      ResultsBeyond(ms, ps, j + 1);
      RecentNotFlagged(ms, config, estimate, ps, j + 1);
    }
  }

  // Between one result and the next nothing is pruned.
  lemma OldResultAt(ms: seq<AgentMessage>, config: PruneConfig, estimate: AgentMessage -> nat, ps: seq<nat>, j: nat)
    requires Gapless(ResultFlags(ms), ps) && j + config.protectRecent < |ps|
    ensures From(ps, j) <= ps[j] < |ms| && IsToolResult(ms[ps[j]])
    ensures ResultsAfter(ms, ps[j] + 1) >= config.protectRecent
    ensures IsGap(Flags(ms, config, estimate), From(ps, j), ps[j])
  {
    ResultsBeyond(ms, ps, j + 1);
    assert GapAt(ResultFlags(ms), ps, j, |ResultFlags(ms)|);
    OnlyResultsFlagged(ms, config, estimate, From(ps, j), ps[j]);
  }

  method PickCandidates(ms: seq<AgentMessage>, config: PruneConfig, estimate: AgentMessage -> nat)
    returns (picked: seq<Candidate>, total: nat)
    ensures IsPicked(Flags(ms, config, estimate), Tokens(ms, estimate), picked, |ms|)
    ensures total == Savings(ms, config, estimate)
  {
    var names := BuildToolNameMap(ms);
    var ps := ToolResultIndices(ms);
    var count := if |ps| >= config.protectRecent then |ps| - config.protectRecent else 0;
    ghost var flags, sizes := Flags(ms, config, estimate), Tokens(ms, estimate);
    picked, total := [], 0;
    for j := 0 to count
      invariant From(ps, j) <= |ms| && IsPicked(flags, sizes, picked, From(ps, j))
      invariant total == SavingsOf(flags, sizes, From(ps, j))
    {
      OldResultAt(ms, config, estimate, ps, j);
      GapSaves(flags, sizes, From(ps, j), ps[j]);
      picked, total := PickOne(ms, names, ps[j], config, estimate, picked, total);
    }
    RecentNotFlagged(ms, config, estimate, ps, count);
    GapSaves(flags, sizes, From(ps, count), |ms|);
  }

  method PickOne(ms: seq<AgentMessage>, names: map<string, string>, i: nat, config: PruneConfig, estimate: AgentMessage -> nat,
    before: seq<Candidate>, totalBefore: nat)
    returns (picked: seq<Candidate>, total: nat)
    requires i < |ms| && IsToolResult(ms[i]) && IsNameMap(names, ms, |ms|)
    requires ResultsAfter(ms, i + 1) >= config.protectRecent
    requires IsPicked(Flags(ms, config, estimate), Tokens(ms, estimate), before, i)
    requires totalBefore == SavingsOf(Flags(ms, config, estimate), Tokens(ms, estimate), i)
    ensures IsPicked(Flags(ms, config, estimate), Tokens(ms, estimate), picked, i + 1)
    ensures total == SavingsOf(Flags(ms, config, estimate), Tokens(ms, estimate), i + 1)
  {
    picked, total := before, totalBefore;
    var take, tokens := Consider(ms, names, i, config, estimate);
    if take {
      picked, total := picked + [Candidate(i, tokens)], total + (tokens - PLACEHOLDER_TOKENS);
    }
    PickedNext(Flags(ms, config, estimate), Tokens(ms, estimate), before, i);
  }

  lemma PickedNext(flags: seq<bool>, tokens: seq<nat>, picked: seq<Candidate>, i: nat)
    requires i < |flags| == |tokens| && IsPicked(flags, tokens, picked, i)
    ensures IsPicked(flags, tokens, if flags[i] then picked + [Candidate(i, tokens[i])] else picked, i + 1)
    ensures SavingsOf(flags, tokens, i + 1) == SavingsOf(flags, tokens, i) + if flags[i] then Saving(tokens[i]) else 0
  {
  }

  method PruneToolOutputs(messages: array<AgentMessage>, config: PruneConfig, estimate: AgentMessage -> nat) returns (outcome: PruneOutcome)
    modifies messages
    ensures messages[..] == Pruned(old(messages[..]), config, estimate)
    ensures outcome == OutcomeOf(old(messages[..]), config, estimate)
  {
    ghost var ms := messages[..];
    ghost var flags, tokens := Flags(ms, config, estimate), Tokens(ms, estimate);
    var picked, total := PickCandidates(messages[..], config, estimate);
    outcome := PruneOutcome(0, 0);
    if total < config.minSavingsTokens {
      return;
    }
    FlagsAreResults(ms, config, estimate);
    outcome := ReplaceAll(messages, picked, config, flags, tokens);
  }

  function OutcomeOf(ms: seq<AgentMessage>, config: PruneConfig, estimate: AgentMessage -> nat): PruneOutcome {
    if Savings(ms, config, estimate) < config.minSavingsTokens then PruneOutcome(0, 0)
    else PruneOutcome(Candidates(ms, config, estimate), Savings(ms, config, estimate))
  }

  lemma FlagsAreResults(ms: seq<AgentMessage>, config: PruneConfig, estimate: AgentMessage -> nat)
    ensures forall i :: 0 <= i < |ms| && Flags(ms, config, estimate)[i] ==> IsToolResult(ms[i])
  {
  }

  method ReplaceAll(messages: array<AgentMessage>, picked: seq<Candidate>, config: PruneConfig, ghost flags: seq<bool>, ghost tokens: seq<nat>)
    returns (outcome: PruneOutcome)
    requires |flags| == |tokens| == messages.Length && IsPicked(flags, tokens, picked, messages.Length)
    requires forall i :: 0 <= i < messages.Length && flags[i] ==> IsToolResult(messages[i])
    modifies messages
    ensures outcome == PruneOutcome(CountOf(flags, |flags|), SavingsOf(flags, tokens, |flags|))
    ensures forall i :: 0 <= i < messages.Length ==> messages[i] == PrunedAt(old(messages[i]), flags[i], config, tokens[i])
  {
    outcome := PruneOutcome(0, 0);
    ghost var ps := Positions(flags, |flags|);
    GapsBetween(flags, |flags|);
    for k := 0 to |picked|
      invariant From(ps, k) <= |flags|
      invariant outcome == PruneOutcome(CountOf(flags, From(ps, k)), SavingsOf(flags, tokens, From(ps, k)))
      invariant forall i :: 0 <= i < From(ps, k) ==> messages[i] == PrunedAt(old(messages[i]), flags[i], config, tokens[i])
      invariant forall i :: From(ps, k) <= i < messages.Length ==> messages[i] == old(messages[i])
    {
      var c := picked[k];
      assert GapAt(flags, ps, k, |flags|);
      GapSaves(flags, tokens, From(ps, k), ps[k]);
      var r := messages[c.index].message.result;
      messages[c.index] := Replaced(r, config, c.tokens);
      outcome := PruneOutcome(outcome.prunedCount + 1, outcome.tokensSaved + Saving(c.tokens));
    }
    assert GapAt(flags, ps, |picked|, |flags|);
    GapSaves(flags, tokens, From(ps, |picked|), |flags|);
  }

  // --- What pruning keeps ---

  // Every message is kept in its place. Only candidates change, and only in their content.
  lemma PrunedKeeps(ms: seq<AgentMessage>, config: PruneConfig, estimate: AgentMessage -> nat, i: nat)
    requires i < |ms|
    ensures var out := Pruned(ms, config, estimate);
      && (!IsCandidate(ms, i, config, estimate) ==> out[i] == ms[i])
      && (IsToolResult(out[i]) <==> IsToolResult(ms[i]))
      && (IsToolResult(ms[i]) ==> out[i].message.result == ms[i].message.result.(content := out[i].message.result.content))
  {
  }

  // So results stay with their calls.
  lemma PrunedKeepsPairing(ms: seq<AgentMessage>, config: PruneConfig, estimate: AgentMessage -> nat)
    requires DirectlyAnswered(ms)
    ensures DirectlyAnswered(Pruned(ms, config, estimate))
  {
    var out := Pruned(ms, config, estimate);
    forall i: nat | i < |out| && IsToolResult(out[i])
      ensures Answered(out, i)
    {
      PrunedKeeps(ms, config, estimate, i);
      assert Answered(ms, i);
      var j: nat :| j < i && Owns(ms, j, i);
      forall k | j <= k < i
        ensures (IsToolResult(out[k]) <==> IsToolResult(ms[k])) && CallIds(out[k]) == CallIds(ms[k])
      {
        PrunedKeeps(ms, config, estimate, k);
      }
      assert Owns(out, j, i);
    }
  }

  // Either nothing changes, or the reported saving is the predicted one and meets the
  // minimum.
  lemma AllOrNothing(ms: seq<AgentMessage>, config: PruneConfig, estimate: AgentMessage -> nat)
    ensures var outcome := OutcomeOf(ms, config, estimate);
      if Savings(ms, config, estimate) < config.minSavingsTokens
      then Pruned(ms, config, estimate) == ms && outcome == PruneOutcome(0, 0)
      else outcome.tokensSaved == Savings(ms, config, estimate) >= config.minSavingsTokens
           && forall i :: 0 <= i < |ms| && IsCandidate(ms, i, config, estimate) ==>
                Pruned(ms, config, estimate)[i].message.result.content == [UserText(Placeholder(config, estimate(ms[i])))]
  {
  }

  // --- Pruning twice ---

  // The marker holds nothing to fill in, so a template that starts with it fills to a text
  // that does.
  lemma {:induction false} FillKeeps(template: string, text: string, n: nat)
    requires n <= |template| && '{' !in template[..n]
    ensures template[..n] <= Fill(template, text)
    decreases n
  {
    if n > 0 {
      assert template[0] in template[..n];
      FillNext(template, text);
      assert template[1..][..n - 1] == template[..n][1..];
      FillKeeps(template[1..], text, n - 1);
    }
  }

  lemma FillNext(template: string, text: string)
    requires template != [] && template[0] != '{'
    ensures Fill(template, text) == [template[0]] + Fill(template[1..], text)
  {
    assert TOKENS[0] == '{';
  }

  // Every place the template leaves for the tokens is filled, and nothing else is changed.
  lemma {:induction false} FillReplaces(before: string, after: string, text: string)
    requires '{' !in before
    ensures Fill(before + TOKENS + after, text) == before + text + Fill(after, text)
  {
    var template := before + TOKENS + after;
    if before == [] {
      assert template[|TOKENS|..] == after;
    } else {
      var c, rest := before[0], before[1..];
      FillNext(template, text);
      assert template[1..] == rest + TOKENS + after;
      FillReplaces(rest, after, text);
      assert [c] + (rest + text + Fill(after, text)) == before + text + Fill(after, text);
    }
  }

  lemma {:induction false} NothingToFill(template: string, text: string)
    requires '{' !in template
    ensures Fill(template, text) == template
  {
    if template != [] {
      FillNext(template, text);
      NothingToFill(template[1..], text);
    }
  }

  // Only a result that is one text starting with the marker counts as pruned.
  lemma AlreadyPrunedIff(r: ToolResultMessage)
    ensures IsAlreadyPruned(r) <==> exists rest :: r.content == [UserText(PRUNED_MARKER + rest)]
  {
    if IsAlreadyPruned(r) {
      var rest := r.content[0].text[|PRUNED_MARKER|..];
      assert r.content[0].text == PRUNED_MARKER + rest;
      assert r.content == [UserText(PRUNED_MARKER + rest)];
    }
  }

  lemma PlaceholderIsMarked(config: PruneConfig, tokens: nat)
    requires PRUNED_MARKER <= config.placeholderTemplate
    ensures PRUNED_MARKER <= Placeholder(config, tokens)
  {
    var n := |PRUNED_MARKER|;
    assert config.placeholderTemplate[..n] == PRUNED_MARKER;
    FillKeeps(config.placeholderTemplate, Pad(tokens, 1), n);
  }

  lemma {:induction false} SameNames(a: seq<AgentMessage>, b: seq<AgentMessage>, n: nat, id: string)
    requires n <= |a| == |b| && forall i :: 0 <= i < n ==> CallsOf(a[i]) == CallsOf(b[i])
    ensures CallName(a, n, id) == CallName(b, n, id)
  {
    if n > 0 {
      SameNames(a, b, n - 1, id);
    }
  }

  lemma {:induction false} SameResultsAfter(a: seq<AgentMessage>, b: seq<AgentMessage>, i: nat)
    requires |a| == |b| && forall j :: 0 <= j < |a| ==> (IsToolResult(a[j]) <==> IsToolResult(b[j]))
    ensures ResultsAfter(a, i) == ResultsAfter(b, i)
    decreases |a| - i
  {
    if i < |a| {
      SameResultsAfter(a, b, i + 1);
    }
  }

  lemma NoCandidateLeft(ms: seq<AgentMessage>, config: PruneConfig, estimate: AgentMessage -> nat, i: nat)
    requires PRUNED_MARKER <= config.placeholderTemplate && i < |ms|
    requires Savings(ms, config, estimate) >= config.minSavingsTokens
    ensures !IsCandidate(Pruned(ms, config, estimate), i, config, estimate)
  {
    var out := Pruned(ms, config, estimate);
    forall j | 0 <= j < |ms|
      ensures (IsToolResult(out[j]) <==> IsToolResult(ms[j])) && CallsOf(out[j]) == CallsOf(ms[j])
    {
      PrunedKeeps(ms, config, estimate, j);
    }
    PlaceholderIsMarked(config, estimate(ms[i]));
    if !IsCandidate(ms, i, config, estimate) && IsToolResult(ms[i]) {
      SameNames(ms, out, |ms|, ms[i].message.result.callId);
      SameResultsAfter(ms, out, i + 1);
    }
  }

  // A second pass changes nothing.
  lemma PruneTwice(ms: seq<AgentMessage>, config: PruneConfig, estimate: AgentMessage -> nat)
    requires PRUNED_MARKER <= config.placeholderTemplate
    ensures Pruned(Pruned(ms, config, estimate), config, estimate) == Pruned(ms, config, estimate)
  {
    if Savings(ms, config, estimate) >= config.minSavingsTokens {
      var out := Pruned(ms, config, estimate);
      forall i | 0 <= i < |out|
        ensures !IsCandidate(out, i, config, estimate)
      {
        NoCandidateLeft(ms, config, estimate, i);
      }
    }
  }
}
