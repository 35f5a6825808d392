/** What every run of the agent loop keeps, whatever the script answers. */
module LoopTheorems {
  import opened Folds
  import opened AgentTypes
  import opened Sequences
  import opened ToolBatch
  import opened BatchProtocol
  import opened LoopModel
  import opened ResponseTheorems
  import opened TraceGrammar

  // ---------- Induction over a run ----------

  /** One more answer; a finished loop stays as it is. */
  function Next(mode: Mode): (Loop, TurnEnv) -> Loop {
    (s: Loop, env: TurnEnv) => if s.finished then s else Step(s, env, mode)
  }

  lemma {:induction false} RunIsFold(s: Loop, script: seq<TurnEnv>, mode: Mode)
    ensures Run(s, script, mode) == Fold(Next(mode), s, script)
  {
    if script != [] {
      RunIsFold(s, script[..|script| - 1], mode);
    }
  }

  /** What holds of a loop and the answers it has been given, and is kept by every next turn, holds after any run. */
  lemma RunInduction(s: Loop, script: seq<TurnEnv>, mode: Mode, p: (Loop, seq<TurnEnv>) -> bool)
    requires p(s, [])
    requires forall r, done, env :: p(r, done) ==> p(Next(mode)(r, env), done + [env])
    ensures p(Run(s, script, mode), script)
  {
    FoldInduction(Next(mode), s, script, p);
    RunIsFold(s, script, mode);
  }

  /** A run has had one turn for each answer it was given, unless it has finished. */
  ghost predicate UsesScript(r: Loop, script: seq<TurnEnv>) {
    |r.turns| <= |script| && (r.finished || |r.turns| == |script|)
  }

  // ---------- The event protocol ----------

  predicate AtRest(s: Loop) {
    Scan(Before, s.trace) == if s.finished then Ended else if s.turns == [] then QUIET else Between
  }

  lemma TurnBatchObeysProtocol(tools: seq<Tool>, mode: Mode, env: TurnEnv)
    ensures Scan(QUIET, TurnBatch(tools, mode, env).events) == QUIET
  {
    var calls := ToolCalls(env.final.blocks);
    ScanTruncated(calls);
    BatchObeysProtocol(tools, mode, calls, Answers(env.calls, |calls|), env.schedule);
  }

  lemma OpeningObeysProtocol(first: bool, pending: seq<Message>, env: TurnEnv)
    ensures Scan(if first then QUIET else Between, TurnOpening(first, pending, env)) ==
            if Begins(env.stream) <= 1 then QUIET else Broken
  {
    var opening := if first then [] else [TurnStart];
    var start := if first then QUIET else Between;
    ScanOne(Between, TurnStart);
    ScanPairs(pending);
    ResponseObeysProtocol(env.stream, env.final);
    ScanConcat(start, opening, Pairs(pending));
    ScanConcat(start, opening + Pairs(pending), ResponseEvents(env.stream, env.final));
  }

  lemma TurnObeysProtocol(first: bool, pending: seq<Message>, env: TurnEnv, batch: Batch)
    requires Scan(QUIET, batch.events) == QUIET
    ensures Scan(if first then QUIET else Between, TurnEvents(first, pending, env, batch)) ==
            if Begins(env.stream) <= 1 then Between else Broken
  {
    var start := if first then QUIET else Between;
    var opening, end := TurnOpening(first, pending, env), TurnEnd(FromAssistant(env.final), batch.results);
    OpeningObeysProtocol(first, pending, env);
    ScanConcat(start, opening, batch.events);
    ScanConcat(start, opening + batch.events, [end]);
    ScanOne(QUIET, end);
    BrokenStaysBroken(batch.events);
    BrokenStaysBroken([end]);
  }

  lemma RunTurnObeysProtocol(s: Loop, env: TurnEnv, mode: Mode)
    requires AtRest(s) && !s.finished
    ensures Scan(Before, RunTurn(s, env, mode).trace) == if Begins(env.stream) <= 1 then Between else Broken
  {
    var batch := TurnBatch(s.context.tools, mode, env);
    TurnBatchObeysProtocol(s.context.tools, mode, env);
    TurnObeysProtocol(s.turns == [], s.pending, env, batch);
    ScanConcat(Before, s.trace, TurnEvents(s.turns == [], s.pending, env, batch));
  }

  /** A step either leaves the trace of its turn as it is, or closes it with the agent_end of the run. */
  lemma StepTrace(s: Loop, env: TurnEnv, mode: Mode)
    requires !s.finished
    ensures var t, s' := RunTurn(s, env, mode), Step(s, env, mode);
            s'.newMessages == t.newMessages && s'.turns == t.turns && s'.executed == t.executed &&
            s'.trace == t.trace + (if s'.finished then [AgentEnd(t.newMessages)] else []) &&
            (s'.finished ==> s'.pending == [])
  {
  }

  predicate Broke(s: Loop) {
    Scan(Before, s.trace) == Broken
  }

  lemma StepObeysProtocol(s: Loop, env: TurnEnv, mode: Mode)
    requires AtRest(s) && !s.finished
    ensures if Begins(env.stream) <= 1 then AtRest(Step(s, env, mode)) else Broke(Step(s, env, mode))
  {
    RunTurnObeysProtocol(s, env, mode);
    StepTrace(s, env, mode);
    var t := RunTurn(s, env, mode);
    ScanConcat(Before, t.trace, [AgentEnd(t.newMessages)]);
    ScanOne(Between, AgentEnd(t.newMessages));
    BrokenStaysBroken([AgentEnd(t.newMessages)]);
  }

  /** A step only adds to the trace, so what is broken stays broken. */
  lemma StepStaysBroken(s: Loop, env: TurnEnv, mode: Mode)
    requires Broke(s) && !s.finished
    ensures Broke(Step(s, env, mode))
  {
    StepTrace(s, env, mode);
    var t := RunTurn(s, env, mode);
    var events := TurnEvents(s.turns == [], s.pending, env, TurnBatch(s.context.tools, mode, env));
    ScanConcat(Before, s.trace, events);
    BrokenStaysBroken(events);
    ScanConcat(Before, t.trace, [AgentEnd(t.newMessages)]);
    BrokenStaysBroken([AgentEnd(t.newMessages)]);
  }

  lemma BegunAtRest(
    context: Context, prompts: seq<Message>, steering: seq<Message>, followUp: seq<Message>, poll: Poll, skip: bool)
    ensures AtRest(Begun(context, prompts, steering, followUp, poll, skip))
  {
    ScanOne(Before, AgentStart);
    ScanOne(Started, TurnStart);
    ScanConcat(Before, [AgentStart], [TurnStart]);
    assert [AgentStart] + [TurnStart] == [AgentStart, TurnStart];
    ScanPairs(prompts);
    ScanConcat(Before, [AgentStart, TurnStart], Pairs(prompts));
  }

  ghost predicate WellBehaved(script: seq<TurnEnv>) {
    forall i :: 0 <= i < |script| ==> Begins(script[i].stream) <= 1
  }

  /** A run has obeyed the protocol as long as the streams of its turns have begun at most once. */
  ghost predicate ObeysWhileBehaved(r: Loop, script: seq<TurnEnv>) {
    && UsesScript(r, script)
    && if WellBehaved(script[..|r.turns|]) then AtRest(r) else Broke(r)
  }

  lemma StepWhileBehaved(r: Loop, script: seq<TurnEnv>, env: TurnEnv, mode: Mode)
    requires ObeysWhileBehaved(r, script) && !r.finished
    ensures ObeysWhileBehaved(Step(r, env, mode), script + [env])
  {
    StepTrace(r, env, mode);
    UsedOneMore(r, script, env);
    if WellBehaved(script) {
      StepObeysProtocol(r, env, mode);
    } else {
      StepStaysBroken(r, env, mode);
    }
  }

  lemma {:induction false} RunWhileBehaved(s: Loop, script: seq<TurnEnv>, mode: Mode)
    requires AtRest(s) && s.turns == [] && !s.finished
    ensures ObeysWhileBehaved(Run(s, script, mode), script)
  {
    var p := (r: Loop, done: seq<TurnEnv>) => ObeysWhileBehaved(r, done);
    forall r, done, env | p(r, done) ensures p(Next(mode)(r, env), done + [env]) {
      if r.finished {
        assert (done + [env])[..|r.turns|] == done[..|r.turns|];
      } else {
        StepWhileBehaved(r, done, env, mode);
      }
    }
    RunInduction(s, script, mode, p);
  }

  /**
   * A finished run has emitted agent_start (turn_start body turn_end)+ agent_end exactly when each stream it
   * read began at most once; until then its trace is a prefix that such a run can continue.
   */
  lemma {:induction false} RunObeysProtocol(
    context: Context, prompts: seq<Message>, steering: seq<Message>, followUp: seq<Message>, poll: Poll, skip: bool,
    script: seq<TurnEnv>, mode: Mode)
    ensures var r := Run(Begun(context, prompts, steering, followUp, poll, skip), script, mode);
            UsesScript(r, script) &&
            (r.finished ==> (Accepts(r.trace) <==> WellBehaved(script[..|r.turns|]))) &&
            (!r.finished ==> (Broke(r) <==> !WellBehaved(script)))
  {
    var s := Begun(context, prompts, steering, followUp, poll, skip);
    BegunAtRest(context, prompts, steering, followUp, poll, skip);
    RunWhileBehaved(s, script, mode);
    assert script[..|script|] == script;
  }

  // ---------- The copies of the conversation ----------

  function TurnMessages(turn: Turn): seq<Message> {
    turn.injected + [FromAssistant(turn.message)] + turn.results
  }

  function Transcript(turns: seq<Turn>): seq<Message> {
    if turns == [] then [] else Transcript(turns[..|turns| - 1]) + TurnMessages(turns[|turns| - 1])
  }

  /** What the listener has seen completed, what the run will return, and the record of its turns agree. */
  predicate CopiesAgree(s: Loop, prompts: seq<Message>) {
    && Completed(s.trace) == s.newMessages == prompts + Transcript(s.turns)
    && (s.finished ==> |s.trace| > 0 && s.trace[|s.trace| - 1] == AgentEnd(s.newMessages) && s.pending == [])
  }

  lemma TurnBatchCompletesItsReplies(tools: seq<Tool>, mode: Mode, env: TurnEnv)
    ensures var batch := TurnBatch(tools, mode, env); Completed(batch.events) == batch.results
  {
    var calls := ToolCalls(env.final.blocks);
    CompletedTruncated(calls);
    BatchCompletesItsReplies(tools, mode, calls, Answers(env.calls, |calls|), env.schedule);
  }

  lemma InjectionCompletes(first: bool, pending: seq<Message>)
    ensures Completed((if first then [] else [TurnStart]) + Pairs(pending)) == pending
  {
    var opening := if first then [] else [TurnStart];
    CompletedOne(TurnStart);
    CompletedPairs(pending);
    CompletedConcat(opening, Pairs(pending));
  }

  lemma OpeningCompletes(first: bool, pending: seq<Message>, env: TurnEnv)
    ensures Completed(TurnOpening(first, pending, env)) == pending + [FromAssistant(env.final)]
  {
    InjectionCompletes(first, pending);
    ResponseCompletesFinal(env.stream, env.final);
    CompletedConcat((if first then [] else [TurnStart]) + Pairs(pending), ResponseEvents(env.stream, env.final));
  }

  lemma TurnCompletes(first: bool, pending: seq<Message>, env: TurnEnv, batch: Batch)
    requires Completed(batch.events) == batch.results
    ensures Completed(TurnEvents(first, pending, env, batch)) == pending + [FromAssistant(env.final)] + batch.results
  {
    var opening, end := TurnOpening(first, pending, env), TurnEnd(FromAssistant(env.final), batch.results);
    OpeningCompletes(first, pending, env);
    CompletedOne(end);
    CompletedConcat(opening, batch.events);
    CompletedConcat(opening + batch.events, [end]);
  }

  /** What one more turn of these events, messages and record adds keeps the three in step. */
  lemma OneMoreTurnAgrees(trace: seq<Event>, turns: seq<Turn>, prompts: seq<Message>, events: seq<Event>, turn: Turn)
    requires Completed(trace) == prompts + Transcript(turns) && Completed(events) == TurnMessages(turn)
    ensures Completed(trace + events) == prompts + Transcript(turns + [turn])
  {
    CompletedConcat(trace, events);
    assert (turns + [turn])[..|turns|] == turns;
    Assoc(prompts, Transcript(turns), TurnMessages(turn));
  }

  lemma RunTurnCopies(s: Loop, env: TurnEnv, mode: Mode, prompts: seq<Message>)
    requires CopiesAgree(s, prompts) && !s.finished
    ensures var t := RunTurn(s, env, mode);
            Completed(t.trace) == t.newMessages == prompts + Transcript(t.turns) && t.pending == []
  {
    var batch := TurnBatch(s.context.tools, mode, env);
    var turn := Turn(s.origin, s.pending, env.final, batch.results, !batch.terminate, batch.executed);
    var events := TurnEvents(s.turns == [], s.pending, env, batch);
    TurnBatchCompletesItsReplies(s.context.tools, mode, env);
    TurnCompletes(s.turns == [], s.pending, env, batch);
    OneMoreTurnAgrees(s.trace, s.turns, prompts, events, turn);
    CompletedConcat(s.trace, events);
    Append4(s.newMessages, s.pending, [FromAssistant(env.final)], batch.results);
  }

  lemma AgentEndCompletesNothing(trace: seq<Event>, messages: seq<Message>)
    ensures Completed(trace + [AgentEnd(messages)]) == Completed(trace)
  {
    CompletedConcat(trace, [AgentEnd(messages)]);
    CompletedOne(AgentEnd(messages));
  }

  lemma StepCopies(s: Loop, env: TurnEnv, mode: Mode, prompts: seq<Message>)
    requires CopiesAgree(s, prompts) && !s.finished
    ensures CopiesAgree(Step(s, env, mode), prompts)
  {
    RunTurnCopies(s, env, mode, prompts);
    StepTrace(s, env, mode);
    var t := RunTurn(s, env, mode);
    AgentEndCompletesNothing(t.trace, t.newMessages);
  }

  lemma BegunCopies(
    context: Context, prompts: seq<Message>, steering: seq<Message>, followUp: seq<Message>, poll: Poll, skip: bool)
    ensures CopiesAgree(Begun(context, prompts, steering, followUp, poll, skip), prompts)
  {
    CompletedOne(AgentStart);
    CompletedOne(TurnStart);
    CompletedConcat([AgentStart], [TurnStart]);
    assert [AgentStart] + [TurnStart] == [AgentStart, TurnStart];
    CompletedPairs(prompts);
    CompletedConcat([AgentStart, TurnStart], Pairs(prompts));
    assert prompts + [] == prompts;
  }

  lemma RunCopies(s: Loop, script: seq<TurnEnv>, mode: Mode, prompts: seq<Message>)
    requires CopiesAgree(s, prompts)
    ensures CopiesAgree(Run(s, script, mode), prompts)
  {
    var p := (r: Loop, done: seq<TurnEnv>) => CopiesAgree(r, prompts);
    forall r, done, env | p(r, done) ensures p(Next(mode)(r, env), done + [env]) {
      if !r.finished {
        StepCopies(r, env, mode, prompts);
      }
    }
    RunInduction(s, script, mode, p);
  }

  // ---------- The loop's own context ----------

  lemma TurnGrowsContext(s: Loop, env: TurnEnv, mode: Mode)
    requires Begins(env.stream) <= 1
    ensures var t := RunTurn(s, env, mode);
            t.context.messages == s.context.messages + TurnMessages(t.turns[|t.turns| - 1]) &&
              t.context.tools == s.context.tools
  {
    StreamedExact(s.context.messages + s.pending, env.stream, env.final);
    var results := TurnBatch(s.context.tools, mode, env).results;
    Assoc(s.context.messages, s.pending, [FromAssistant(env.final)]);
    Assoc(s.context.messages, s.pending + [FromAssistant(env.final)], results);
  }

  /** The context the run holds after its turns: the last replacement, if any, grown by the later turns. */
  function Grown(context: seq<Message>, turns: seq<Turn>, script: seq<TurnEnv>): seq<Message>
    requires |turns| <= |script|
  {
    if turns == [] then context
    else
      var last := |turns| - 1;
      var grown := Grown(context, turns[..last], script) + TurnMessages(turns[last]);
      if script[last].final.Failed() then grown
      else if script[last].replacement.Some? then script[last].replacement.value.messages else grown
  }

  lemma StepContext(s: Loop, env: TurnEnv, mode: Mode)
    requires Begins(env.stream) <= 1 && !s.finished
    ensures var s' := Step(s, env, mode);
            |s'.turns| == |s.turns| + 1 && s'.turns[..|s.turns|] == s.turns &&
            var grown := s.context.messages + TurnMessages(s'.turns[|s.turns|]);
            s'.context.messages ==
              if env.final.Failed() || env.replacement.None? then grown else env.replacement.value.messages
  {
    TurnGrowsContext(s, env, mode);
    StepTrace(s, env, mode);
  }

  lemma {:induction false} GrownPrefix(
    context: seq<Message>, turns: seq<Turn>, script: seq<TurnEnv>, more: seq<TurnEnv>)
    requires |turns| <= |script|
    ensures Grown(context, turns, script + more) == Grown(context, turns, script)
  {
    if turns != [] {
      GrownPrefix(context, turns[..|turns| - 1], script, more);
    }
  }

  lemma GrownSnoc(context: seq<Message>, turns: seq<Turn>, script: seq<TurnEnv>, env: TurnEnv)
    requires |turns| == |script| + 1
    ensures var grown := Grown(context, turns[..|script|], script) + TurnMessages(turns[|script|]);
            Grown(context, turns, script + [env]) ==
              if env.final.Failed() || env.replacement.None? then grown else env.replacement.value.messages
  {
    GrownPrefix(context, turns[..|script|], script, [env]);
  }

  /** As long as the streams of its turns have begun at most once, a run holds the context grown by its turns. */
  ghost predicate HoldsContext(r: Loop, context: seq<Message>, script: seq<TurnEnv>) {
    && UsesScript(r, script)
    && (WellBehaved(script[..|r.turns|]) ==> r.context.messages == Grown(context, r.turns, script))
  }

  lemma StepHoldsContext(r: Loop, context: seq<Message>, script: seq<TurnEnv>, env: TurnEnv, mode: Mode)
    requires HoldsContext(r, context, script) && !r.finished
    ensures HoldsContext(Step(r, env, mode), context, script + [env])
  {
    StepTrace(r, env, mode);
    UsedOneMore(r, script, env);
    if WellBehaved(script + [env]) {
      StepContext(r, env, mode);
      GrownSnoc(context, Step(r, env, mode).turns, script, env);
    }
  }

  /** What a run that goes on has used, before and after one more answer. */
  lemma UsedOneMore(r: Loop, script: seq<TurnEnv>, env: TurnEnv)
    requires UsesScript(r, script) && !r.finished
    ensures script[..|r.turns|] == script && (script + [env])[..|r.turns| + 1] == script + [env]
    ensures WellBehaved(script + [env]) <==> WellBehaved(script) && Begins(env.stream) <= 1
    ensures NoReplacement(script + [env]) <==> NoReplacement(script) && env.replacement.None?
  {
    var more := script + [env];
    assert more[|script|] == env && forall i :: 0 <= i < |script| ==> more[i] == script[i];
  }

  /** The context after any part of a run is the one grown by its turns. */
  lemma RunContext(s: Loop, script: seq<TurnEnv>, mode: Mode)
    requires s.turns == [] && !s.finished
    ensures HoldsContext(Run(s, script, mode), s.context.messages, script)
  {
    var context := s.context.messages;
    var p := (r: Loop, done: seq<TurnEnv>) => HoldsContext(r, context, done);
    forall r, done, env | p(r, done) ensures p(Next(mode)(r, env), done + [env]) {
      if r.finished {
        assert (done + [env])[..|r.turns|] == done[..|r.turns|];
        GrownPrefix(context, r.turns, done, [env]);
      } else {
        StepHoldsContext(r, context, done, env, mode);
      }
    }
    RunInduction(s, script, mode, p);
  }

  ghost predicate NoReplacement(script: seq<TurnEnv>) {
    forall i :: 0 <= i < |script| ==> script[i].replacement.None?
  }

  /** How many starts too many the streams have. */
  function Excess(script: seq<TurnEnv>): nat {
    if script == [] then 0
    else
      var begins := Begins(script[|script| - 1].stream);
      Excess(script[..|script| - 1]) + if begins <= 1 then 0 else begins - 1
  }

  lemma {:induction false} NoExcess(script: seq<TurnEnv>)
    ensures Excess(script) == 0 <==> WellBehaved(script)
  {
    if script != [] {
      var init := script[..|script| - 1];
      NoExcess(init);
      assert WellBehaved(script) <==> WellBehaved(init) && Begins(script[|script| - 1].stream) <= 1 by {
        assert forall i :: 0 <= i < |init| ==> script[i] == init[i];
      }
    }
  }

  /** Every start too many leaves one partial message behind in the context. */
  ghost predicate ContextIsLong(r: Loop, length: nat, script: seq<TurnEnv>) {
    && UsesScript(r, script)
    && (NoReplacement(script[..|r.turns|]) ==>
          |r.context.messages| == length + |Transcript(r.turns)| + Excess(script[..|r.turns|]))
  }

  lemma TurnLengthensContext(r: Loop, env: TurnEnv, mode: Mode)
    ensures var t := RunTurn(r, env, mode);
            t.turns[..|r.turns|] == r.turns && |t.turns| == |r.turns| + 1 &&
            |t.context.messages| ==
              |r.context.messages| + |TurnMessages(t.turns[|r.turns|])| + if Begins(env.stream) <= 1 then 0
                else Begins(env.stream) - 1
  {
    StreamedGrowth(r.context.messages + r.pending, env.stream, env.final, false);
  }

  lemma StepLengthensContext(r: Loop, length: nat, script: seq<TurnEnv>, env: TurnEnv, mode: Mode)
    requires ContextIsLong(r, length, script) && !r.finished
    ensures ContextIsLong(Step(r, env, mode), length, script + [env])
  {
    StepTrace(r, env, mode);
    UsedOneMore(r, script, env);
    TurnLengthensContext(r, env, mode);
    assert (script + [env])[..|script|] == script;
  }

  lemma RunLengthensContext(s: Loop, script: seq<TurnEnv>, mode: Mode)
    requires s.turns == [] && !s.finished
    ensures ContextIsLong(Run(s, script, mode), |s.context.messages|, script)
  {
    var length := |s.context.messages|;
    var p := (r: Loop, done: seq<TurnEnv>) => ContextIsLong(r, length, done);
    forall r, done, env | p(r, done) ensures p(Next(mode)(r, env), done + [env]) {
      if r.finished {
        assert (done + [env])[..|r.turns|] == done[..|r.turns|];
      } else {
        StepLengthensContext(r, length, done, env, mode);
      }
    }
    RunInduction(s, script, mode, p);
  }

  lemma {:induction false} GrownWithoutReplacement(context: seq<Message>, turns: seq<Turn>, script: seq<TurnEnv>)
    requires |turns| <= |script| && forall i :: 0 <= i < |turns| ==> script[i].replacement.None?
    ensures Grown(context, turns, script) == context + Transcript(turns)
  {
    if turns == [] {
      assert context + [] == context;
    } else {
      var last := |turns| - 1;
      GrownWithoutReplacement(context, turns[..last], script);
      Assoc(context, Transcript(turns[..last]), TurnMessages(turns[last]));
    }
  }

  /**
   * The three conversations of a run: what the run returns is what the listener saw completed, and when no hook
   * replaces the context it is the initial one plus these messages if and only if streams begin at most once.
   */
  lemma ConversationCopiesAgree(
    context: Context, prompts: seq<Message>, steering: seq<Message>, followUp: seq<Message>, poll: Poll, skip: bool,
    script: seq<TurnEnv>, mode: Mode)
    ensures var r := Run(Begun(context, prompts, steering, followUp, poll, skip), script, mode);
            UsesScript(r, script) && CopiesAgree(r, prompts) &&
            (NoReplacement(script[..|r.turns|]) ==>
              (r.context.messages == context.messages + r.newMessages <==> WellBehaved(script[..|r.turns|])))
  {
    var s := Begun(context, prompts, steering, followUp, poll, skip);
    var r := Run(s, script, mode);
    BegunCopies(context, prompts, steering, followUp, poll, skip);
    RunCopies(s, script, mode, prompts);
    RunContext(s, script, mode);
    RunLengthensContext(s, script, mode);
    var used := script[..|r.turns|];
    NoExcess(used);
    if NoReplacement(used) {
      assert forall i :: 0 <= i < |used| ==> script[i] == used[i];
      GrownWithoutReplacement(s.context.messages, r.turns, script);
      Assoc(context.messages, prompts, Transcript(r.turns));
    }
  }
}
