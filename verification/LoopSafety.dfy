/** Which tool calls are executed and how all of them are answered, over whole runs. */
module LoopSafety {
  import opened AgentTypes
  import opened Sequences
  import opened ToolBatch
  import opened BatchProtocol
  import opened ToolOutcomes
  import opened LoopModel
  import opened LoopTheorems

  // ---------- The calls of a message ----------

  /** The calls stand at these places among the blocks, in order. */
  ghost predicate StandAt(blocks: seq<Block>, calls: seq<ToolCall>, places: seq<nat>) {
    && |places| == |calls|
    && (forall k :: 0 <= k < |places| ==> places[k] < |blocks| && blocks[places[k]] == Call(calls[k]))
    && (forall j, k :: 0 <= j < k < |places| ==> places[j] < places[k])
  }

  /** No tool call stands anywhere else. */
  ghost predicate AreAll(blocks: seq<Block>, places: seq<nat>) {
    forall i :: 0 <= i < |blocks| && blocks[i].Call? ==> i in places
  }

  function Shifted(block: Block, places: seq<nat>): seq<nat> {
    (if block.Call? then [0] else []) + seq(|places|, k requires 0 <= k < |places| => places[k] + 1)
  }

  lemma StandShifted(block: Block, blocks: seq<Block>, calls: seq<ToolCall>, places: seq<nat>)
    requires StandAt(blocks, calls, places)
    ensures StandAt([block] + blocks, (if block.Call? then [block.call] else []) + calls, Shifted(block, places))
  {
  }

  lemma AllShifted(block: Block, blocks: seq<Block>, places: seq<nat>)
    requires AreAll(blocks, places)
    ensures AreAll([block] + blocks, Shifted(block, places))
  {
    var longer, more := [block] + blocks, Shifted(block, places);
    forall i | 0 <= i < |longer| && longer[i].Call? ensures i in more {
      if i == 0 {
        assert more[0] == 0;
      } else {
        assert blocks[i - 1].Call?;
        var k :| 0 <= k < |places| && places[k] == i - 1;
        assert more[if block.Call? then k + 1 else k] == i;
      }
    }
  }

  /** The calls that are handled are all those in the message, in source order. */
  lemma {:induction false} ToolCallsExactly(blocks: seq<Block>) returns (places: seq<nat>)
    ensures StandAt(blocks, ToolCalls(blocks), places) && AreAll(blocks, places)
  {
    places := [];
    if blocks != [] {
      places := ToolCallsExactly(blocks[1..]);
      StandShifted(blocks[0], blocks[1..], ToolCalls(blocks[1..]), places);
      AllShifted(blocks[0], blocks[1..], places);
      assert [blocks[0]] + blocks[1..] == blocks;
      places := Shifted(blocks[0], places);
    }
  }

  // ---------- Replies to tool calls ----------

  predicate AnswersCall(m: Message, call: ToolCall) {
    m.FromTool? && m.reply.toolCallId == call.id && m.reply.toolName == call.name
  }

  /** The executed calls are the reached ones that may execute, in source order. */
  ghost predicate ExecutedOnlyAllowed(
    tools: seq<Tool>, calls: seq<ToolCall>, envs: seq<CallEnv>, n: nat, executed: seq<ToolCall>)
    requires n <= |calls| == |envs|
  {
    if n == 0 then executed == []
    else if MayExecute(tools, calls[n - 1], envs[n - 1]) then
      |executed| > 0 && executed[|executed| - 1] == calls[n - 1] &&
      ExecutedOnlyAllowed(tools, calls, envs, n - 1, executed[..|executed| - 1])
    else ExecutedOnlyAllowed(tools, calls, envs, n - 1, executed)
  }

  lemma {:induction false} ExecutedIsAllowed(tools: seq<Tool>, calls: seq<ToolCall>, envs: seq<CallEnv>, n: nat)
    requires n <= |calls| == |envs|
    ensures ExecutedOnlyAllowed(tools, calls, envs, n, Executed(tools, calls, envs, n))
  {
    if n > 0 {
      ExecutedIsAllowed(tools, calls, envs, n - 1);
      PreparedIffMayExecute(tools, calls[n - 1], envs[n - 1]);
      var before, now := Executed(tools, calls, envs, n - 1), Executed(tools, calls, envs, n);
      if MayExecute(tools, calls[n - 1], envs[n - 1]) {
        assert now[..|now| - 1] == before;
      } else {
        assert now == before;
      }
    }
  }

  ghost predicate AnswersPrefix(results: seq<Message>, calls: seq<ToolCall>) {
    |results| <= |calls| && forall i :: 0 <= i < |results| ==> AnswersCall(results[i], calls[i])
  }

  /** Replies to executed calls: all of them, or up to the first after which the signal was seen aborted. */
  ghost predicate ExecutedWell(
    results: seq<Message>, executed: seq<ToolCall>, tools: seq<Tool>, calls: seq<ToolCall>, envs: seq<CallEnv>)
    requires |calls| == |envs|
  {
    && 1 <= |results| && AnswersPrefix(results, calls)
    && (|results| < |calls| ==> envs[|results| - 1].abortedAfter)
    && (forall i :: 0 <= i < |results| - 1 ==> !envs[i].abortedAfter)
    && ExecutedOnlyAllowed(tools, calls, envs, |results|, executed)
    && forall i :: 0 <= i < |results| ==> IsAnswer(results[i], tools, calls[i], envs[i])
  }

  /** All calls that were answered ask to stop. */
  ghost predicate AllAsk(n: nat, tools: seq<Tool>, calls: seq<ToolCall>, envs: seq<CallEnv>)
    requires n <= |calls| == |envs|
  {
    forall i :: 0 <= i < n ==> AsksToStop(tools, calls[i], envs[i])
  }

  /** The message tells that the call was not executed because the response was cut off. */
  ghost predicate IsCutOff(m: Message, call: ToolCall) {
    exists result :: FailedWith(result, true, TruncatedResponse(call.name)) && IsReply(m, call, result, true)
  }

  ghost predicate TruncatedWell(results: seq<Message>, calls: seq<ToolCall>) {
    && AnswersPrefix(results, calls) && |results| == |calls|
    && forall i :: 0 <= i < |results| ==> IsCutOff(results[i], calls[i])
  }

  lemma TruncatedBatchIsWell(calls: seq<ToolCall>)
    ensures TruncatedWell(TruncatedBatch(calls).results, calls)
  {
    var results := TruncatedBatch(calls).results;
    forall i | 0 <= i < |calls| ensures IsCutOff(results[i], calls[i]) {
      var f := TruncatedOutcome(calls[i]);
      assert FailedWith(f.result, true, TruncatedResponse(calls[i].name));
      assert IsReply(results[i], calls[i], f.result, true);
    }
  }

  /**
   * A turn's replies answer a prefix of its calls in source order, each with what its call came out with, and the
   * batch continues unless all of these ask to stop; a failed response has none, and a truncated one has all its
   * calls answered with errors and none executed.
   */
  ghost predicate WellAnswered(turn: Turn, tools: seq<Tool>, env: TurnEnv) {
    var calls := ToolCalls(turn.message.blocks);
    && turn.message == env.final
    && if turn.message.stopReason.Error? || turn.message.stopReason.Aborted? || calls == []
       then turn.results == [] && turn.executed == [] && !turn.more
       else if turn.message.stopReason.Length?
         then TruncatedWell(turn.results, calls) && turn.executed == [] && turn.more
       else
         var envs := Answers(env.calls, |calls|);
         ExecutedWell(turn.results, turn.executed, tools, calls, envs) &&
         (turn.more <==> !AllAsk(|turn.results|, tools, calls, envs))
  }

  lemma {:induction false} RepliesAt(fs: seq<Finalized>)
    ensures |Replies(fs)| == |fs|
    ensures forall i :: 0 <= i < |fs| ==> Replies(fs)[i] == Reply(fs[i])
  {
    if fs != [] {
      RepliesAt(fs[..|fs| - 1]);
    }
  }

  lemma BatchRepliesAt(tools: seq<Tool>, calls: seq<ToolCall>, envs: seq<CallEnv>, n: nat)
    requires n <= |calls| == |envs|
    ensures var replies := Replies(Outcomes(tools, calls, envs, n));
            |replies| == n && forall i :: 0 <= i < n ==> IsAnswer(replies[i], tools, calls[i], envs[i])
  {
    OutcomesAt(tools, calls, envs, n);
    RepliesAt(Outcomes(tools, calls, envs, n));
    forall i | 0 <= i < n ensures IsAnswer(Reply(Outcome(tools, calls[i], envs[i])), tools, calls[i], envs[i]) {
      ReplyIsAnswer(tools, calls[i], envs[i]);
    }
  }

  lemma {:induction false} WellFromParts(
    results: seq<Message>, executed: seq<ToolCall>, tools: seq<Tool>, calls: seq<ToolCall>, envs: seq<CallEnv>)
    requires |calls| == |envs| && calls != [] && |results| == Reached(envs)
    requires forall i :: 0 <= i < |results| ==> IsAnswer(results[i], tools, calls[i], envs[i])
    requires ExecutedOnlyAllowed(tools, calls, envs, |results|, executed)
    ensures ExecutedWell(results, executed, tools, calls, envs)
  {
    forall i | 0 <= i < |results| ensures AnswersCall(results[i], calls[i]) {
      assert IsAnswer(results[i], tools, calls[i], envs[i]);
    }
    assert AnswersPrefix(results, calls);
  }

  lemma {:induction false} ExecutedBatchIsWell(
    tools: seq<Tool>, mode: Mode, calls: seq<ToolCall>, envs: seq<CallEnv>, schedule: seq<nat>)
    requires |calls| == |envs| && calls != []
    ensures var batch := ExecuteBatch(tools, mode, calls, envs, schedule);
            ExecutedWell(batch.results, batch.executed, tools, calls, envs) &&
            (batch.terminate <==> AllAsk(|batch.results|, tools, calls, envs))
  {
    var n := Reached(envs);
    BatchRepliesAt(tools, calls, envs, n);
    ExecutedIsAllowed(tools, calls, envs, n);
    BatchIs(tools, mode, calls, envs, schedule);
    WellFromParts(Replies(Outcomes(tools, calls, envs, n)), Executed(tools, calls, envs, n), tools, calls, envs);
    StopsExactly(tools, mode, calls, envs, schedule);
  }

  /** Both modes reply to the same calls and execute the same ones. */
  lemma BatchIs(tools: seq<Tool>, mode: Mode, calls: seq<ToolCall>, envs: seq<CallEnv>, schedule: seq<nat>)
    requires |calls| == |envs|
    ensures var batch, n := ExecuteBatch(tools, mode, calls, envs, schedule), Reached(envs);
            batch.results == Replies(Outcomes(tools, calls, envs, n)) &&
              batch.executed == Executed(tools, calls, envs, n)
  {
  }

  /** The record of a turn that brought a batch. */
  function TurnOf(origin: Origin, injected: seq<Message>, message: Assistant, batch: Batch): Turn {
    Turn(origin, injected, message, batch.results, !batch.terminate, batch.executed)
  }

  lemma BatchIsWellAnswered(origin: Origin, injected: seq<Message>, tools: seq<Tool>, env: TurnEnv, mode: Mode)
    ensures WellAnswered(TurnOf(origin, injected, env.final, TurnBatch(tools, mode, env)), tools, env)
  {
    var calls := ToolCalls(env.final.blocks);
    TruncatedBatchIsWell(calls);
    if !env.final.Failed() && !env.final.stopReason.Length? && calls != [] {
      ExecutedBatchIsWell(tools, mode, calls, Answers(env.calls, |calls|), env.schedule);
    }
  }

  /** The tools the next turn works with: the initial ones, or those of the last replaced context. */
  function ToolsAfter(initial: seq<Tool>, script: seq<TurnEnv>): seq<Tool> {
    if script == [] then initial
    else
      var last := script[|script| - 1];
      if last.replacement.Some? then last.replacement.value.tools else ToolsAfter(initial, script[..|script| - 1])
  }

  /** Every turn is well answered, and only the last one's response may have failed. */
  ghost predicate AllWellAnswered(turns: seq<Turn>, initial: seq<Tool>, script: seq<TurnEnv>)
    requires |turns| == |script|
  {
    turns == [] ||
    var last := |turns| - 1;
    && AllWellAnswered(turns[..last], initial, script[..last])
    && WellAnswered(turns[last], ToolsAfter(initial, script[..last]), script[last])
    && (last > 0 ==> !turns[last - 1].message.Failed())
  }

  /** The turn that the next step records. */
  function NextTurn(r: Loop, env: TurnEnv, mode: Mode): Turn {
    TurnOf(r.origin, r.pending, env.final, TurnBatch(r.context.tools, mode, env))
  }

  /** A step adds one turn, and goes on with the tools of its context unless the response failed. */
  lemma StepKeepsTools(r: Loop, env: TurnEnv, mode: Mode)
    requires !r.finished
    ensures var s, turn := Step(r, env, mode), NextTurn(r, env, mode);
            s.turns == r.turns + [turn] && s.executed == r.executed + turn.executed &&
            (!s.finished ==>
               !env.final.Failed() && s.context.tools == env.replacement.GetOr(r.context).tools)
  {
    StepTrace(r, env, mode);
  }

  /** What the turns record as executed, in order. */
  function ExecutedIn(turns: seq<Turn>): seq<ToolCall> {
    if turns == [] then [] else ExecutedIn(turns[..|turns| - 1]) + turns[|turns| - 1].executed
  }

  /** After as many turns as the script has answers: all are well answered, and a run that goes on has not failed. */
  ghost predicate WellSoFar(r: Loop, initial: seq<Tool>, script: seq<TurnEnv>) {
    && |r.turns| == |script|
    && AllWellAnswered(r.turns, initial, script)
    && (!r.finished ==> r.context.tools == ToolsAfter(initial, script))
    && (!r.finished && script != [] ==> !r.turns[|script| - 1].message.Failed())
  }

  lemma AllAndOneMore(turns: seq<Turn>, turn: Turn, initial: seq<Tool>, script: seq<TurnEnv>, env: TurnEnv)
    requires |turns| == |script| && AllWellAnswered(turns, initial, script)
    requires WellAnswered(turn, ToolsAfter(initial, script), env)
    requires script != [] ==> !turns[|script| - 1].message.Failed()
    ensures AllWellAnswered(turns + [turn], initial, script + [env])
  {
    assert (turns + [turn])[..|turns|] == turns;
    assert (script + [env])[..|script|] == script;
  }

  lemma ToolsAfterOneMore(initial: seq<Tool>, script: seq<TurnEnv>, env: TurnEnv)
    ensures ToolsAfter(initial, script + [env]) ==
            if env.replacement.Some? then env.replacement.value.tools else ToolsAfter(initial, script)
  {
    assert (script + [env])[..|script|] == script;
  }

  lemma StepIsWellAnswered(r: Loop, initial: seq<Tool>, script: seq<TurnEnv>, env: TurnEnv, mode: Mode)
    requires !r.finished && WellSoFar(r, initial, script)
    ensures WellSoFar(Step(r, env, mode), initial, script + [env])
  {
    var turn := NextTurn(r, env, mode);
    StepKeepsTools(r, env, mode);
    BatchIsWellAnswered(r.origin, r.pending, r.context.tools, env, mode);
    AllAndOneMore(r.turns, turn, initial, script, env);
    ToolsAfterOneMore(initial, script, env);
  }

  lemma StepExecutes(r: Loop, already: seq<ToolCall>, env: TurnEnv, mode: Mode)
    requires !r.finished && r.executed == already + ExecutedIn(r.turns)
    ensures var s := Step(r, env, mode); s.executed == already + ExecutedIn(s.turns)
  {
    var turn := NextTurn(r, env, mode);
    StepKeepsTools(r, env, mode);
    assert (r.turns + [turn])[..|r.turns|] == r.turns;
    Assoc(already, ExecutedIn(r.turns), turn.executed);
  }

  /** All calls a run has had executed are those its turns record, and none besides. */
  lemma RunExecutes(s: Loop, script: seq<TurnEnv>, mode: Mode)
    requires s.turns == []
    ensures var r := Run(s, script, mode); r.executed == s.executed + ExecutedIn(r.turns)
  {
    var already := s.executed;
    var p := (r: Loop, done: seq<TurnEnv>) => r.executed == already + ExecutedIn(r.turns);
    assert already + [] == already;
    forall r, done, env | p(r, done) ensures p(Next(mode)(r, env), done + [env]) {
      if !r.finished {
        StepExecutes(r, already, env, mode);
      }
    }
    RunInduction(s, script, mode, p);
  }

  /**
   * Over a whole run every assistant message is followed by well-formed replies to its calls, and the calls the
   * tools were asked to execute are exactly those that the well-answered turns record.
   */
  lemma RunIsWellAnswered(s: Loop, script: seq<TurnEnv>, mode: Mode)
    requires s.turns == [] && !s.finished
    ensures var r := Run(s, script, mode);
            UsesScript(r, script) && WellSoFar(r, s.context.tools, script[..|r.turns|]) &&
            r.executed == s.executed + ExecutedIn(r.turns)
  {
    var p := (r: Loop, done: seq<TurnEnv>) => UsesScript(r, done) && WellSoFar(r, s.context.tools, done[..|r.turns|]);
    forall r, done, env | p(r, done) ensures p(Next(mode)(r, env), done + [env]) {
      if r.finished {
        assert (done + [env])[..|r.turns|] == done[..|r.turns|];
      } else {
        assert done[..|done|] == done && (done + [env])[..|done| + 1] == done + [env];
        StepIsWellAnswered(r, s.context.tools, done, env, mode);
      }
    }
    RunInduction(s, script, mode, p);
    RunExecutes(s, script, mode);
  }
}
