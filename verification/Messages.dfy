// Transcript messages (grain-agent-core/src/types.rs), reduced to the parts the agent loop,
// the session store and the context reducers look at; and when the results of a transcript
// follow the calls they answer, which is what every reducer has to keep.
module Messages {

  datatype Option<+T> = None | Some(value: T)

  datatype ToolCall = ToolCall(id: string, name: string, arguments: string)

  datatype AssistantContent =
    | Text(text: string)
    | Image
    | Thinking(thinking: string)
    | Call(call: ToolCall)

  datatype UserContent = UserText(text: string) | UserImage

  datatype StopReason = Pending | Stop | ToolUse | Length | Error | Aborted | Refused

  datatype AssistantMessage = AssistantMessage(
    content: seq<AssistantContent>,
    provider: string,
    model: string,
    stopReason: StopReason,
    errorMessage: Option<string>)

  datatype ToolResultMessage = ToolResultMessage(
    callId: string,
    toolName: string,
    content: seq<UserContent>,
    isError: bool)

  datatype Message =
    | User(content: seq<UserContent>)
    | Assistant(assistant: AssistantMessage)
    | ToolResult(result: ToolResultMessage)

  // The custom payloads the harness itself writes into a transcript, and any other; one
  // without a role has the role "custom".
  datatype CustomPayload =
    | CompactionSummary(summary: string, tokensBefore: nat)
    | BranchSummary(summary: string, fromId: string)
    | Other(role: string, customType: string, content: string)

  datatype AgentMessage = Standard(message: Message) | Custom(payload: CustomPayload)

  // A custom message names its own role, and may name one of the standard ones.
  function Role(m: AgentMessage): string {
    match m
    case Standard(User(_)) => "user"
    case Standard(Assistant(_)) => "assistant"
    case Standard(ToolResult(_)) => "toolResult"
    case Custom(CompactionSummary(_, _)) => "compactionSummary"
    case Custom(BranchSummary(_, _)) => "branchSummary"
    case Custom(Other(role, _, _)) => role
  }

  function Calls(content: seq<AssistantContent>): (calls: seq<ToolCall>)
    ensures |calls| <= |content|
    ensures forall c :: c in calls <==> Call(c) in content
  {
    if content == [] then []
    else
      var rest := Calls(content[1..]);
      assert content == [content[0]] + content[1..];
      if content[0].Call? then [content[0].call] + rest else rest
  }

  // Calls come in the order of the content that makes them.
  lemma FirstCall(c: AssistantContent, rest: seq<AssistantContent>, all: seq<AssistantContent>)
    requires all == [c] + rest
    ensures Calls(all) == (if c.Call? then [c.call] else []) + Calls(rest)
  {
    assert all[1..] == rest;
  }

  // Users and assistants are who the messages say, and custom messages that say they are.
  lemma RolesAre(m: AgentMessage)
    ensures Role(m) == "user" <==> (m.Standard? && m.message.User?) || (m.Custom? && m.payload.Other? && m.payload.role == "user")
    ensures Role(m) == "assistant" <==> (m.Standard? && m.message.Assistant?) || (m.Custom? && m.payload.Other? && m.payload.role == "assistant")
    ensures Role(m) == "toolResult" <==> IsToolResult(m) || (m.Custom? && m.payload.Other? && m.payload.role == "toolResult")
  {
  }

  predicate IsToolResult(m: AgentMessage) {
    m.Standard? && m.message.ToolResult?
  }

  predicate HasToolCall(m: AgentMessage) {
    m.Standard? && m.message.Assistant? && exists c :: c in m.message.assistant.content && c.Call?
  }

  ghost function CallIds(m: AgentMessage): set<string> {
    if m.Standard? && m.message.Assistant?
    then set c | c in m.message.assistant.content && c.Call? :: c.call.id
    else {}
  }

  lemma IdsOfCalls(m: AgentMessage, calls: seq<ToolCall>)
    requires m.Standard? && m.message.Assistant? && calls == Calls(m.message.assistant.content)
    ensures (set c | c in calls :: c.id) == CallIds(m)
  {
    forall id | id in CallIds(m)
      ensures id in set c | c in calls :: c.id
    {
      var c :| c in m.message.assistant.content && c.Call? && c.call.id == id;
      assert c.call in calls;
    }
    forall c | c in calls
      ensures c.id in CallIds(m)
    {
      assert Call(c) in m.message.assistant.content;
    }
  }

  // Message j issued the call that message i answers, with nothing but results in between.
  ghost predicate Owns(ms: seq<AgentMessage>, j: nat, i: nat)
    requires j < i < |ms|
  {
    && IsToolResult(ms[i])
    && ms[i].message.result.callId in CallIds(ms[j])
    && forall k :: j < k < i ==> IsToolResult(ms[k])
  }

  ghost predicate Answered(ms: seq<AgentMessage>, i: nat)
    requires i < |ms|
  {
    exists j: nat :: j < i && Owns(ms, j, i)
  }

  // Every tool result directly follows the assistant message that asked for it.
  // This is the shape the agent loop writes.
  ghost predicate DirectlyAnswered(ms: seq<AgentMessage>) {
    forall i: nat :: i < |ms| && IsToolResult(ms[i]) ==> Answered(ms, i)
  }

  // No tool result without an earlier call of the same id.
  ghost predicate IsOrphan(ms: seq<AgentMessage>, i: nat)
    requires i < |ms|
  {
    IsToolResult(ms[i]) && forall j :: 0 <= j < i ==> ms[i].message.result.callId !in CallIds(ms[j])
  }

  ghost predicate OrphanFree(ms: seq<AgentMessage>) {
    forall i: nat :: i < |ms| ==> !IsOrphan(ms, i)
  }

  lemma DirectlyAnsweredIsOrphanFree(ms: seq<AgentMessage>)
    requires DirectlyAnswered(ms)
    ensures OrphanFree(ms)
  {
    forall i: nat | i < |ms| && IsToolResult(ms[i])
      ensures !IsOrphan(ms, i)
    {
      assert Answered(ms, i);
      var j: nat :| j < i && Owns(ms, j, i);
      assert ms[i].message.result.callId in CallIds(ms[j]);
    }
  }

  // Pairing depends only on what lies between a result and its owner, so a suffix that
  // does not start inside a run of results keeps it, and so does every prefix.
  lemma SuffixKeepsPairing(ms: seq<AgentMessage>, c: nat)
    requires DirectlyAnswered(ms) && c <= |ms|
    requires c < |ms| ==> !IsToolResult(ms[c])
    ensures DirectlyAnswered(ms[c..])
  {
    var tail := ms[c..];
    forall i: nat | i < |tail| && IsToolResult(tail[i])
      ensures Answered(tail, i)
    {
      assert Answered(ms, c + i);
      var j: nat :| j < c + i && Owns(ms, j, c + i);
      assert j >= c;
      assert Owns(tail, j - c, i);
    }
  }

  lemma PrefixKeepsPairing(ms: seq<AgentMessage>, c: nat)
    requires DirectlyAnswered(ms) && c <= |ms|
    ensures DirectlyAnswered(ms[..c])
  {
    var head := ms[..c];
    forall i: nat | i < |head| && IsToolResult(head[i])
      ensures Answered(head, i)
    {
      assert Answered(ms, i);
      var j: nat :| j < i && Owns(ms, j, i);
      assert Owns(head, j, i);
    }
  }

  // Sum of s[i..]; the reducers keep it as a running total.
  function SumFrom(s: seq<nat>, i: nat): (total: nat)
    decreases |s| - i
  {
    if i >= |s| then 0 else s[i] + SumFrom(s, i + 1)
  }

  lemma {:induction false} SumFromAntitone(s: seq<nat>, i: nat, j: nat)
    requires i <= j
    ensures SumFrom(s, j) <= SumFrom(s, i)
    decreases j - i
  {
    if i < j {
      SumFromAntitone(s, i + 1, j);
    }
  }

  lemma {:induction false} SumFromDrop(s: seq<nat>, k: nat, i: nat)
    requires k <= |s|
    ensures SumFrom(s[k..], i) == SumFrom(s, k + i)
    decreases |s| - k - i
  {
    if k + i < |s| {
      SumFromDrop(s, k, i + 1);
    }
  }
}
