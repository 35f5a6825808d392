/** How each tool call comes out, told from what the environment answered. */
module ToolOutcomes {
  import opened Options
  import opened AgentTypes
  import opened ToolBatch
  import opened BatchTheorems
  import opened BatchProtocol

  // ---------- Which calls are executed ----------

  /** A call may run only if its tool exists, its arguments are valid and nothing blocks or aborts it. */
  ghost predicate MayExecute(tools: seq<Tool>, call: ToolCall, env: CallEnv) {
    && (exists tool :: tool in tools && tool.name == call.name)
    && env.invalid.None? && !env.abortedAtGate && !env.before.BeforeThrows?
    && !(env.before.BeforeReturns? && env.before.block)
  }

  lemma {:induction false} FoundToolExists(tools: seq<Tool>, name: string)
    ensures FindTool(tools, name).Some? <==> exists tool :: tool in tools && tool.name == name
    ensures FindTool(tools, name).Some? ==> FindTool(tools, name).value.name == name
  {
    if tools != [] {
      FoundToolExists(tools[1..], name);
      assert tools[0] in tools;
      assert forall tool :: tool in tools <==> tool == tools[0] || tool in tools[1..];
    }
  }

  lemma PreparedIffMayExecute(tools: seq<Tool>, call: ToolCall, env: CallEnv)
    ensures Prepare(tools, call, env).Prepared? <==> MayExecute(tools, call, env)
    ensures !MayExecute(tools, call, env) ==> Outcome(tools, call, env).isError
    ensures Outcome(tools, call, env).call == call
  {
    FoundToolExists(tools, call.name);
  }

  // ---------- What a call comes out with ----------

  /** The result of a call that failed for this reason. */
  ghost predicate FailedWith(result: ToolResult, isError: bool, reason: Reason) {
    && isError && result.content == Some([Failure(reason)]) && result.details == "{}"
    && result.usage.None? && result.addedToolNames == [] && result.terminate.None?
  }

  /** Why a call that may not execute is refused: the first thing that is wrong with it. */
  ghost predicate RefusedFor(tools: seq<Tool>, call: ToolCall, env: CallEnv, reason: Reason) {
    if !exists tool :: tool in tools && tool.name == call.name then reason == ToolNotFound(call.name)
    else if env.invalid.Some? then reason == Threw(env.invalid.value)
    else if env.before.BeforeThrows? then reason == Threw(env.before.message)
    else if env.abortedAtGate then reason == OperationAborted
    else
      env.before.BeforeReturns? && env.before.block &&
      (reason == BlockedByHook(None) <==> env.before.reason.None? || env.before.reason.value == "") &&
      (env.before.reason.Some? && env.before.reason.value != "" ==> reason == BlockedByHook(env.before.reason)) &&
      reason.BlockedByHook?
  }

  /** The result the tool itself gave: what it returned, or its failure. */
  ghost predicate IsOwn(env: CallEnv, result: ToolResult, isError: bool) {
    if env.execution.Returned? then result == env.execution.result && !isError
    else FailedWith(result, isError, Threw(env.execution.message))
  }

  /** `result` is `own` with the fields that the hook gives in place of the tool's. */
  ghost predicate IsOverridden(o: Override, own: ToolResult, ownError: bool, result: ToolResult, isError: bool) {
    && result.content == (if o.content.Some? then o.content else own.content)
    && result.details == (if o.details.Some? then o.details.value else own.details)
    && result.usage == (if o.usage.Some? then o.usage else own.usage)
    && result.terminate == (if o.terminate.Some? then o.terminate else own.terminate)
    && isError == (if o.isError.Some? then o.isError.value else ownError)
    && result.addedToolNames == own.addedToolNames
  }

  /** What the hook that runs after the tool makes of the tool's own result. */
  ghost predicate IsFinal(env: CallEnv, own: ToolResult, ownError: bool, result: ToolResult, isError: bool) {
    match env.after
    case AfterThrows(message) => FailedWith(result, isError, Threw(message))
    case AfterReturns(Some(o)) => IsOverridden(o, own, ownError, result, isError)
    case _ => result == own && isError == ownError
  }

  /** A call's result, from the environment's answers alone. */
  ghost predicate ComesOut(tools: seq<Tool>, call: ToolCall, env: CallEnv, result: ToolResult, isError: bool) {
    if !MayExecute(tools, call, env)
    then exists reason :: RefusedFor(tools, call, env, reason) && FailedWith(result, isError, reason)
    else exists own, ownError :: IsOwn(env, own, ownError) && IsFinal(env, own, ownError, result, isError)
  }

  lemma RefusalComesOut(tools: seq<Tool>, call: ToolCall, env: CallEnv)
    requires !MayExecute(tools, call, env)
    ensures var f := Outcome(tools, call, env); ComesOut(tools, call, env, f.result, f.isError)
  {
    FoundToolExists(tools, call.name);
    var f := Outcome(tools, call, env);
    var reason := f.result.content.value[0].reason;
    assert RefusedFor(tools, call, env, reason) && FailedWith(f.result, f.isError, reason);
  }

  lemma ExecutionComesOut(tools: seq<Tool>, call: ToolCall, env: CallEnv)
    requires MayExecute(tools, call, env)
    ensures var f := Outcome(tools, call, env); ComesOut(tools, call, env, f.result, f.isError)
  {
    PreparedIffMayExecute(tools, call, env);
    var f := Outcome(tools, call, env);
    var (own, ownError) := Settle(env.execution);
    assert IsOwn(env, own, ownError) && IsFinal(env, own, ownError, f.result, f.isError);
  }

  lemma OutcomeComesOut(tools: seq<Tool>, call: ToolCall, env: CallEnv)
    ensures var f := Outcome(tools, call, env); f.call == call && ComesOut(tools, call, env, f.result, f.isError)
  {
    PreparedIffMayExecute(tools, call, env);
    if MayExecute(tools, call, env) {
      ExecutionComesOut(tools, call, env);
    } else {
      RefusalComesOut(tools, call, env);
    }
  }

  /** The answers determine the result: there is no second one they could mean. */
  lemma ComesOutIsUnique(
    tools: seq<Tool>, call: ToolCall, env: CallEnv, a: ToolResult, aError: bool, b: ToolResult, bError: bool)
    requires ComesOut(tools, call, env, a, aError) && ComesOut(tools, call, env, b, bError)
    ensures a == b && aError == bError
  {
  }

  /** The message that tells the model how the call came out; a result without content has no parts. */
  ghost predicate IsReply(m: Message, call: ToolCall, result: ToolResult, isError: bool) {
    && m.FromTool? && m.reply.toolCallId == call.id && m.reply.toolName == call.name
    && m.reply.content == (if result.content.Some? then result.content.value else [])
    && m.reply.details == result.details && m.reply.usage == result.usage
    && m.reply.addedToolNames == result.addedToolNames && m.reply.isError == isError
  }

  /** The message answers the call with what it came out with. */
  ghost predicate IsAnswer(m: Message, tools: seq<Tool>, call: ToolCall, env: CallEnv) {
    exists result, isError :: ComesOut(tools, call, env, result, isError) && IsReply(m, call, result, isError)
  }

  lemma ReplyIsAnswer(tools: seq<Tool>, call: ToolCall, env: CallEnv)
    ensures IsAnswer(Reply(Outcome(tools, call, env)), tools, call, env)
  {
    var f := Outcome(tools, call, env);
    OutcomeComesOut(tools, call, env);
    assert ComesOut(tools, call, env, f.result, f.isError) && IsReply(Reply(f), call, f.result, f.isError);
  }

  // ---------- What a listener hears of a call ----------

  /** How many reports of a tool are heard: those made before its settlement was noticed, if it ran at all. */
  ghost function HeardOf(tools: seq<Tool>, call: ToolCall, env: CallEnv): nat {
    if !MayExecute(tools, call, env) then 0
    else if env.settlesAfter < |env.reports| then env.settlesAfter
    else |env.reports|
  }

  /** The call's start, the reports that are heard, and its end, which tells how it came out. */
  ghost predicate TellsCall(t: seq<Event>, tools: seq<Tool>, call: ToolCall, env: CallEnv) {
    var n := HeardOf(tools, call, env);
    && |t| == n + 2 && t[0] == ToolStart(call)
    && (forall k :: 0 <= k < n ==> t[k + 1] == ToolUpdate(call, env.reports[k]))
    && t[n + 1].ToolEnd? && t[n + 1].call == call && ComesOut(tools, call, env, t[n + 1].result, t[n + 1].isError)
  }

  lemma LifeTellsCall(tools: seq<Tool>, call: ToolCall, env: CallEnv)
    ensures TellsCall(Life(tools, call, env), tools, call, env)
  {
    PreparedIffMayExecute(tools, call, env);
    OutcomeComesOut(tools, call, env);
  }

  /** With distinct ids, what a listener hears of a reached call is told by the environment's answers alone. */
  lemma {:induction false} EachCallIsTold(
    tools: seq<Tool>, mode: Mode, calls: seq<ToolCall>, envs: seq<CallEnv>, schedule: seq<nat>, i: nat)
    requires |calls| == |envs| && Distinct(Ids(calls)) && i < |calls|
    ensures i < Reached(envs) ==>
              TellsCall(OfCall(ExecuteBatch(tools, mode, calls, envs, schedule).events, calls[i].id),
                        tools, calls[i], envs[i])
  {
    EachCallLivesOnce(tools, mode, calls, envs, schedule, i);
    LifeTellsCall(tools, calls[i], envs[i]);
  }

  /** Ids repeated or not, the track of a call is what is heard of it and then the reply that answers it. */
  lemma TrackTellsCall(tools: seq<Tool>, call: ToolCall, env: CallEnv) returns (heard: seq<Event>, reply: Message)
    ensures WholeCall(tools, call, env) == heard + [MessageStart(reply), MessageEnd(reply)]
    ensures TellsCall(heard, tools, call, env) && IsAnswer(reply, tools, call, env)
  {
    heard, reply := Life(tools, call, env), Reply(Outcome(tools, call, env));
    LifeTellsCall(tools, call, env);
    ReplyIsAnswer(tools, call, env);
  }

  /** In either mode and under every schedule, each end that a listener hears tells how a reached call came out. */
  lemma {:induction false} EndsTellOutcomes(
    tools: seq<Tool>, mode: Mode, calls: seq<ToolCall>, envs: seq<CallEnv>, schedule: seq<nat>, e: Event)
    requires |calls| == |envs| && e.ToolEnd? && e in ExecuteBatch(tools, mode, calls, envs, schedule).events
    ensures exists i ::
              0 <= i < Reached(envs) && e.call == calls[i] && ComesOut(tools, calls[i], envs[i], e.result, e.isError)
  {
    var tracks := Tracks(tools, calls, envs, Reached(envs));
    BatchInterleavesTracks(tools, mode, calls, envs, schedule);
    InterleavingMembers(tracks, ExecuteBatch(tools, mode, calls, envs, schedule).events);
    var i :| 0 <= i < |tracks| && e in tracks[i];
    EndOfWholeCall(tools, calls[i], envs[i], e);
    OutcomeComesOut(tools, calls[i], envs[i]);
  }

  lemma EndOfWholeCall(tools: seq<Tool>, call: ToolCall, env: CallEnv, e: Event)
    requires e.ToolEnd? && e in WholeCall(tools, call, env)
    ensures e == End(Outcome(tools, call, env))
  {
  }

  // ---------- Whether a batch asks to stop ----------

  /** The call was executed and its hook did not fail; hook or, failing that, tool said that the run may stop. */
  ghost predicate AsksToStop(tools: seq<Tool>, call: ToolCall, env: CallEnv) {
    && MayExecute(tools, call, env) && !env.after.AfterThrows?
    && if env.after.AfterReturns? && env.after.override.Some? && env.after.override.value.terminate.Some?
       then env.after.override.value.terminate.value
       else env.execution.Returned? && env.execution.result.terminate == Some(true)
  }

  lemma AsksExactly(tools: seq<Tool>, call: ToolCall, env: CallEnv)
    ensures Outcome(tools, call, env).result.terminate == Some(true) <==> AsksToStop(tools, call, env)
  {
    PreparedIffMayExecute(tools, call, env);
  }

  /** A batch stops the run if and only if it has calls and every call that was reached asks for it. */
  lemma {:induction false} StopsExactly(
    tools: seq<Tool>, mode: Mode, calls: seq<ToolCall>, envs: seq<CallEnv>, schedule: seq<nat>)
    requires |calls| == |envs|
    ensures ExecuteBatch(tools, mode, calls, envs, schedule).terminate <==>
            calls != [] && forall i :: 0 <= i < Reached(envs) ==> AsksToStop(tools, calls[i], envs[i])
  {
    var n := Reached(envs);
    var fs := Outcomes(tools, calls, envs, n);
    OutcomesAt(tools, calls, envs, n);
    forall i | 0 <= i < n ensures fs[i].result.terminate == Some(true) <==> AsksToStop(tools, calls[i], envs[i]) {
      AsksExactly(tools, calls[i], envs[i]);
    }
  }

  // ---------- In which mode a batch runs ----------

  /** The tool a call of this name means: the first that has it. */
  ghost predicate IsNamed(tools: seq<Tool>, name: string, j: nat) {
    j < |tools| && tools[j].name == name && forall k :: 0 <= k < j ==> tools[k].name != name
  }

  /** A call of a tool that must not run beside others. */
  ghost predicate NeedsTurn(tools: seq<Tool>, call: ToolCall) {
    exists j: nat :: IsNamed(tools, call.name, j) && tools[j].mode == Some(Sequential)
  }

  lemma {:induction false} FindToolIsFirst(tools: seq<Tool>, name: string) returns (j: nat)
    ensures FindTool(tools, name).Some? ==> IsNamed(tools, name, j) && FindTool(tools, name) == Some(tools[j])
    ensures FindTool(tools, name).None? ==> forall k :: 0 <= k < |tools| ==> tools[k].name != name
  {
    j := 0;
    if tools != [] && tools[0].name != name {
      j := FindToolIsFirst(tools[1..], name);
      assert forall k :: 0 < k < |tools| ==> tools[k] == tools[1..][k - 1];
      j := j + 1;
    }
  }

  lemma SequentialExactly(tools: seq<Tool>, call: ToolCall)
    ensures WantsSequential(FindTool(tools, call.name)) <==> NeedsTurn(tools, call)
  {
    var j := FindToolIsFirst(tools, call.name);
    if i: nat :| IsNamed(tools, call.name, i) && tools[i].mode == Some(Sequential) {
      assert i == j;
    }
  }

  /** Configured so, or for the sake of one call, a batch runs its calls one after the other, replies included. */
  lemma {:induction false} OneByOne(
    tools: seq<Tool>, mode: Mode, calls: seq<ToolCall>, envs: seq<CallEnv>, schedule: seq<nat>)
    requires |calls| == |envs| && (mode.Sequential? || exists call :: call in calls && NeedsTurn(tools, call))
    ensures ExecuteBatch(tools, mode, calls, envs, schedule).events ==
            Flatten(Tracks(tools, calls, envs, Reached(envs)))
  {
    forall call | call in calls ensures WantsSequential(FindTool(tools, call.name)) <==> NeedsTurn(tools, call) {
      SequentialExactly(tools, call);
    }
    SequentialFlat(tools, calls, envs, Reached(envs));
  }

  /** What a call shows while the batch is prepared: its start, and if it is refused at once its end. */
  ghost predicate Opens(t: seq<Event>, tools: seq<Tool>, call: ToolCall, env: CallEnv) {
    if MayExecute(tools, call, env) then t == [ToolStart(call)] else TellsCall(t, tools, call, env)
  }

  /** The openings of a batch, and what its calls show after them, make up what is heard of each call. */
  lemma OpeningOpens(tools: seq<Tool>, call: ToolCall, env: CallEnv)
    ensures Opens(Opening(tools, call, env), tools, call, env)
    ensures TellsCall(Opening(tools, call, env) + Remaining(tools, call, env), tools, call, env)
  {
    PreparedIffMayExecute(tools, call, env);
    LifeTellsCall(tools, call, env);
    if !MayExecute(tools, call, env) {
      assert Opening(tools, call, env) + [] == Opening(tools, call, env);
    }
  }

  /** The calls are opened in order, what they then show is interleaved as `race`, and the replies come last. */
  ghost predicate RunsBesides(
    tools: seq<Tool>, calls: seq<ToolCall>, envs: seq<CallEnv>, batch: Batch, race: seq<Event>)
    requires |calls| == |envs|
  {
    batch.events == Flatten(Openings(tools, calls, envs, Reached(envs))) + race + Pairs(batch.results)
  }

  /** Otherwise they run beside each other, and every interleaving of them comes about under some schedule. */
  lemma {:induction false} SideBySide(
    tools: seq<Tool>, calls: seq<ToolCall>, envs: seq<CallEnv>, race: seq<Event>) returns (schedule: seq<nat>)
    requires |calls| == |envs| && !exists call :: call in calls && NeedsTurn(tools, call)
    requires IsInterleaving(Processes(tools, calls, envs, Reached(envs)), race)
    ensures RunsBesides(tools, calls, envs, ExecuteBatch(tools, Parallel, calls, envs, schedule), race)
  {
    var n := Reached(envs);
    forall call | call in calls ensures WantsSequential(FindTool(tools, call.name)) <==> NeedsTurn(tools, call) {
      SequentialExactly(tools, call);
    }
    RunsShow(tools, calls, envs, n);
    schedule := InterleavingHasSchedule(Launches(tools, calls, envs, n), race);
    PreparationIsFlat(tools, calls, envs, n);
  }
}
