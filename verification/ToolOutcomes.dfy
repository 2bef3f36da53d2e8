// What becomes of one tool call (agent_loop.rs `prepare_tool_call`, `execute_prepared` and
// `finalize_executed`), said in terms of the tools and hooks alone.
module ToolOutcomes {
  import opened Messages
  import opened ToolBatch

  // Tool k is the one a call names: the first of that name.
  ghost predicate Names(box: Toolbox, call: ToolCall, k: nat) {
    && k < |box.tools| && box.tools[k].name == call.name
    && forall j :: 0 <= j < k ==> box.tools[j].name != call.name
  }

  // The arguments pass the tool's own preparation and validation.
  ghost predicate Passes(tool: Tool, arguments: string, valid: string) {
    var prepared := tool.prepare(arguments);
    prepared.Ok? && tool.validate(prepared.value) == Ok(valid)
  }

  // The before hook lets the call go on, with its own arguments or with the hook's.
  ghost predicate LetsPass(box: Toolbox, call: ToolCall, polls: Polls, valid: string, arguments: string) {
    if box.before.None? then arguments == valid
    else
      var said := box.before.value(call, valid);
      && said.Ok? && !polls.afterHook
      && (said.value.None? ==> arguments == valid)
      && (said.value.Some? ==>
        !said.value.value.block
        && arguments == if said.value.value.arguments.Some? then said.value.value.arguments.value else valid)
  }

  // The call is executed by tool k on these arguments.
  ghost predicate MayRun(box: Toolbox, call: ToolCall, polls: Polls, k: nat, arguments: string) {
    && Names(box, call, k) && !polls.atEnd
    && exists valid :: Passes(box.tools[k], call.arguments, valid) && LetsPass(box, call, polls, valid, arguments)
  }

  ghost predicate Refused(box: Toolbox, call: ToolCall, polls: Polls) {
    forall k: nat, arguments :: !MayRun(box, call, polls, k, arguments)
  }

  lemma {:induction false} FoundIsFirst(tools: seq<Tool>, name: string)
    ensures match FindTool(tools, name)
      case None => forall j :: 0 <= j < |tools| ==> tools[j].name != name
      case Some(tool) => exists k :: 0 <= k < |tools| && tools[k] == tool && tool.name == name && forall j :: 0 <= j < k ==> tools[j].name != name
  {
    if tools != [] && tools[0].name != name {
      FoundIsFirst(tools[1..], name);
      var rest := FindTool(tools[1..], name);
      if rest.Some? {
        var k :| 0 <= k < |tools[1..]| && tools[1..][k] == rest.value && forall j :: 0 <= j < k ==> tools[1..][j].name != name;
        assert tools[k + 1] == rest.value;
        forall j | 0 <= j < k + 1
          ensures tools[j].name != name
        {
          assert j > 0 ==> tools[j] == tools[1..][j - 1];
        }
      } else {
        forall j | 0 <= j < |tools|
          ensures tools[j].name != name
        {
          assert j > 0 ==> tools[j] == tools[1..][j - 1];
        }
      }
    }
  }

  lemma NamesFound(box: Toolbox, call: ToolCall, k: nat)
    requires Names(box, call, k)
    ensures FindTool(box.tools, call.name) == Some(box.tools[k])
  {
    FoundIsFirst(box.tools, call.name);
  }

  // A call is prepared for execution exactly when it may run.
  lemma PreparedIff(box: Toolbox, call: ToolCall, polls: Polls, arguments: string)
    ensures Prepare(box, call, polls) == Prepared(arguments) <==> exists k: nat :: MayRun(box, call, polls, k, arguments)
  {
    FoundIsFirst(box.tools, call.name);
    if Prepare(box, call, polls) == Prepared(arguments) {
      var tool := FindTool(box.tools, call.name).value;
      var k :| 0 <= k < |box.tools| && box.tools[k] == tool && forall j :: 0 <= j < k ==> box.tools[j].name != call.name;
      var valid := Checked(tool, call.arguments).value;
      assert Passes(box.tools[k], call.arguments, valid) && LetsPass(box, call, polls, valid, arguments);
      assert MayRun(box, call, polls, k, arguments);
    }
    if k: nat :| MayRun(box, call, polls, k, arguments) {
      NamesFound(box, call, k);
    }
  }

  // The same tools and hooks, but for what executing a tool does.
  ghost predicate AlikeButForExecuting(a: Toolbox, b: Toolbox) {
    && a.before == b.before && |a.tools| == |b.tools|
    && forall k :: 0 <= k < |a.tools| ==>
      a.tools[k].name == b.tools[k].name && a.tools[k].prepare == b.tools[k].prepare && a.tools[k].validate == b.tools[k].validate
  }

  lemma MayRunAlike(a: Toolbox, b: Toolbox, call: ToolCall, polls: Polls, k: nat, arguments: string)
    requires AlikeButForExecuting(a, b) && MayRun(a, call, polls, k, arguments)
    ensures MayRun(b, call, polls, k, arguments)
  {
    var valid :| Passes(a.tools[k], call.arguments, valid) && LetsPass(a, call, polls, valid, arguments);
    assert Passes(b.tools[k], call.arguments, valid) && LetsPass(b, call, polls, valid, arguments);
  }

  // A refused call never reaches its tool: whatever executing a tool or the after hook would
  // do, its result is the same, and it is an error that does not end the run.
  lemma RefusedNeverRuns(a: Toolbox, b: Toolbox, call: ToolCall, polls: Polls)
    requires AlikeButForExecuting(a, b) && Refused(a, call, polls)
    ensures Finalize(ExecutorOf(a), call, polls) == Finalize(ExecutorOf(b), call, polls)
    ensures Finalize(ExecutorOf(a), call, polls).isError && Finalize(ExecutorOf(a), call, polls).output.terminate == None
  {
    if Prepare(a, call, polls).Prepared? {
      PreparedIff(a, call, polls, Prepare(a, call, polls).arguments);
    }
    if Prepare(b, call, polls).Prepared? {
      var arguments := Prepare(b, call, polls).arguments;
      PreparedIff(b, call, polls, arguments);
      var k: nat :| MayRun(b, call, polls, k, arguments);
      MayRunAlike(b, a, call, polls, k, arguments);
    }
    FoundAlike(a.tools, b.tools, call.name);
  }

  lemma {:induction false} FoundAlike(a: seq<Tool>, b: seq<Tool>, name: string)
    requires |a| == |b|
    requires forall k :: 0 <= k < |a| ==> a[k].name == b[k].name && a[k].prepare == b[k].prepare && a[k].validate == b[k].validate
    ensures FindTool(a, name).Some? <==> FindTool(b, name).Some?
    ensures FindTool(a, name).Some? ==>
      FindTool(a, name).value.prepare == FindTool(b, name).value.prepare && FindTool(a, name).value.validate == FindTool(b, name).value.validate
  {
    if a != [] && a[0].name != name {
      FoundAlike(a[1..], b[1..], name);
    }
  }

  // So it is with a call the before hook blocks; it is told why.
  lemma BlockedIsRefused(box: Toolbox, call: ToolCall, polls: Polls, k: nat, valid: string)
    requires Names(box, call, k) && Passes(box.tools[k], call.arguments, valid) && box.before.Some?
    requires var said := box.before.value(call, valid); said.Ok? && said.value.Some? && said.value.value.block
    ensures Refused(box, call, polls)
    ensures var reason := box.before.value(call, valid).value.value.reason;
      Finalize(ExecutorOf(box), call, polls).output.content ==
        [UserText(if polls.afterHook then "Operation aborted" else if reason.Some? then reason.value else "Tool execution was blocked")]
  {
    NamesFound(box, call, k);
    forall j: nat, arguments
      ensures !MayRun(box, call, polls, j, arguments)
    {
      if MayRun(box, call, polls, j, arguments) {
        NamesFound(box, call, j);
      }
    }
  }

  // What the other refused calls are told.
  lemma RefusedIsTold(box: Toolbox, call: ToolCall, polls: Polls, k: nat)
    ensures (forall j: nat :: !Names(box, call, j)) ==> Told(box, call, polls, "Tool " + call.name + " not found")
    ensures Names(box, call, k) && box.tools[k].prepare(call.arguments).Err? ==>
      Told(box, call, polls, box.tools[k].prepare(call.arguments).message)
    ensures Names(box, call, k) ==> forall prepared :: box.tools[k].prepare(call.arguments) == Ok(prepared) && box.tools[k].validate(prepared).Err? ==>
      Told(box, call, polls, box.tools[k].validate(prepared).message)
    ensures Names(box, call, k) && box.before.Some? ==> forall valid :: Passes(box.tools[k], call.arguments, valid) && box.before.value(call, valid).Err? ==>
      Told(box, call, polls, box.before.value(call, valid).message)
    ensures Names(box, call, k) && polls.atEnd ==>
      forall valid, arguments :: Passes(box.tools[k], call.arguments, valid) && LetsPass(box, call, polls, valid, arguments) ==>
        Told(box, call, polls, "Operation aborted")
  {
    FoundIsFirst(box.tools, call.name);
    if Names(box, call, k) {
      NamesFound(box, call, k);
    }
    var found := FindTool(box.tools, call.name);
    if j: nat :| j < |box.tools| && found.Some? && box.tools[j] == found.value && forall i :: 0 <= i < j ==> box.tools[i].name != call.name {
      assert Names(box, call, j);
    }
  }

  ghost predicate Told(box: Toolbox, call: ToolCall, polls: Polls, text: string) {
    Finalize(ExecutorOf(box), call, polls).output.content == [UserText(text)]
  }

  // A call that may run is executed on its arguments, the tool's failure being an error, and
  // the after hook replaces what it says it replaces; a hook that fails replaces it all.
  lemma RunsOnItsArguments(box: Toolbox, call: ToolCall, polls: Polls, k: nat, arguments: string)
    requires MayRun(box, call, polls, k, arguments)
    ensures
      var f := Finalize(ExecutorOf(box), call, polls);
      var ran := box.tools[k].execute(call.id, arguments);
      var output := if ran.Ok? then ran.value else ToolOutput([UserText(ran.message)], None);
      && f.call == call
      && (box.after.None? ==> f.output == output && f.isError == ran.Err?)
      && (box.after.Some? ==>
        var said := box.after.value(call, arguments, output, ran.Err?);
        && (said.Err? ==> f.output == ToolOutput([UserText(said.message)], None) && f.isError)
        && (said.Ok? && said.value.None? ==> f.output == output && f.isError == ran.Err?)
        && (said.Ok? && said.value.Some? ==>
          var a := said.value.value;
          && f.output.content == (if a.content.Some? then a.content.value else output.content)
          && f.output.terminate == (if a.terminate.Some? then a.terminate else output.terminate)
          && f.isError == (if a.isError.Some? then a.isError.value else ran.Err?)))
  {
    NamesFound(box, call, k);
    PreparedIff(box, call, polls, arguments);
  }

  // --- Batches ---

  // Each result is its call's, under the call's own id and name; and a batch ends the run
  // exactly when it answered some call and every call it answered says so, which only one
  // that ran can.
  lemma BatchReports(box: Toolbox, calls: seq<ToolCall>, polls: nat -> Polls, b: Batch)
    requires IsBatch(ExecutorOf(box), calls, polls, b)
    ensures forall i :: 0 <= i < |b.results| ==>
      var f := Finalize(ExecutorOf(box), calls[i], polls(i));
      b.results[i] == ToolResultMessage(calls[i].id, calls[i].name, f.output.content, f.isError)
    ensures b.terminate <==> (b.results != [] &&
      forall i :: 0 <= i < |b.results| ==> Finalize(ExecutorOf(box), calls[i], polls(i)).output.terminate == Some(true))
    ensures b.terminate ==> forall i :: 0 <= i < |b.results| ==> !Refused(box, calls[i], polls(i))
  {
    var finals := Finals(ExecutorOf(box), calls, polls, |b.results|);
    assert forall i :: 0 <= i < |b.results| ==> finals[i] == Finalize(ExecutorOf(box), calls[i], polls(i));
    forall i | b.terminate && 0 <= i < |b.results|
      ensures !Refused(box, calls[i], polls(i))
    {
      if Refused(box, calls[i], polls(i)) {
        RefusedNeverRuns(box, box, calls[i], polls(i));
      }
    }
  }

  // Exchanging what the tools do changes no result of a refused call.
  lemma RefusedInBatch(a: Toolbox, b: Toolbox, calls: seq<ToolCall>, polls: nat -> Polls, x: Batch, y: Batch)
    requires AlikeButForExecuting(a, b)
    requires IsBatch(ExecutorOf(a), calls, polls, x) && IsBatch(ExecutorOf(b), calls, polls, y)
    ensures |x.results| == |y.results|
    ensures forall i :: 0 <= i < |x.results| && Refused(a, calls[i], polls(i)) ==> x.results[i] == y.results[i] && x.results[i].isError
  {
    BatchReports(a, calls, polls, x);
    BatchReports(b, calls, polls, y);
    forall i | 0 <= i < |x.results| && i < |y.results| && Refused(a, calls[i], polls(i))
      ensures x.results[i] == y.results[i] && x.results[i].isError
    {
      RefusedNeverRuns(a, b, calls[i], polls(i));
    }
    var m, n := |x.results|, |y.results|;
    assert m >= n && n >= m;
  }
}
