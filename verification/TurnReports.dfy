/** What the turn_end events of a run report, and the error an agent shows after it. */
module TurnReports {
  import opened Options
  import opened AgentTypes
  import opened AgentState
  import opened ToolBatch
  import opened BatchTheorems
  import opened BatchProtocol
  import opened LoopModel
  import opened LoopTheorems
  import opened SessionModel

  function TurnEnds(trace: seq<Event>): seq<Event> {
    if trace == [] then []
    else
      var e := trace[|trace| - 1];
      TurnEnds(trace[..|trace| - 1]) + if e.TurnEnd? then [e] else []
  }

  /** What the turn_end of each turn should carry: its response and its replies. */
  function Reports(turns: seq<Turn>): seq<Event> {
    seq(|turns|, i requires 0 <= i < |turns| => TurnEnd(FromAssistant(turns[i].message), turns[i].results))
  }

  lemma {:induction false} TurnEndsConcat(a: seq<Event>, b: seq<Event>)
    ensures TurnEnds(a + b) == TurnEnds(a) + TurnEnds(b)
  {
    if b == [] {
      assert a + b == a;
    } else {
      var init := b[..|b| - 1];
      assert (a + b)[..|a + b| - 1] == a + init;
      TurnEndsConcat(a, init);
    }
  }

  lemma {:induction false} NoTurnEnds(t: seq<Event>)
    requires forall e :: e in t ==> !e.TurnEnd?
    ensures TurnEnds(t) == []
  {
    if t != [] {
      NoTurnEnds(t[..|t| - 1]);
      assert t[|t| - 1] in t;
    }
  }

  lemma TurnEndsOne(e: Event)
    ensures TurnEnds([e]) == if e.TurnEnd? then [e] else []
  {
    assert [e][..0] == [];
  }

  // ---------- One turn ----------

  ghost predicate EndsNoTurn(t: seq<Event>) {
    forall e :: e in t ==> !e.TurnEnd?
  }

  lemma {:induction false} RelayedEndsNoTurn(stream: seq<StreamEvent>, open: bool)
    ensures EndsNoTurn(Relayed(stream, open))
  {
    if stream != [] && !stream[0].Terminal? {
      RelayedEndsNoTurn(stream[1..], if stream[0].Begin? then true else open);
    }
  }

  lemma {:induction false} PairsEndNoTurn(ms: seq<Message>)
    ensures EndsNoTurn(Pairs(ms))
  {
    if ms != [] {
      PairsEndNoTurn(ms[..|ms| - 1]);
    }
  }

  lemma {:induction false} TruncatedEndsNoTurn(calls: seq<ToolCall>)
    ensures EndsNoTurn(TruncatedEvents(calls))
  {
    if calls != [] {
      TruncatedEndsNoTurn(calls[..|calls| - 1]);
    }
  }

  lemma WholeCallEndsNoTurn(tools: seq<Tool>, call: ToolCall, env: CallEnv)
    ensures EndsNoTurn(WholeCall(tools, call, env))
  {
    LifeIsLife(tools, call, env);
  }

  lemma {:induction false} ExecutedEndsNoTurn(
    tools: seq<Tool>, mode: Mode, calls: seq<ToolCall>, envs: seq<CallEnv>, schedule: seq<nat>)
    requires |calls| == |envs|
    ensures EndsNoTurn(ExecuteBatch(tools, mode, calls, envs, schedule).events)
  {
    var n := Reached(envs);
    var tracks, events := Tracks(tools, calls, envs, n), ExecuteBatch(tools, mode, calls, envs, schedule).events;
    BatchInterleavesTracks(tools, mode, calls, envs, schedule);
    InterleavingMembers(tracks, events);
    forall i | 0 <= i < n ensures EndsNoTurn(tracks[i]) {
      WholeCallEndsNoTurn(tools, calls[i], envs[i]);
    }
  }

  lemma BatchEndsNoTurn(tools: seq<Tool>, mode: Mode, env: TurnEnv)
    ensures EndsNoTurn(TurnBatch(tools, mode, env).events)
  {
    var calls := ToolCalls(env.final.blocks);
    TruncatedEndsNoTurn(calls);
    ExecutedEndsNoTurn(tools, mode, calls, Answers(env.calls, |calls|), env.schedule);
  }

  lemma TurnReportsItself(first: bool, pending: seq<Message>, env: TurnEnv, batch: Batch)
    requires EndsNoTurn(batch.events)
    ensures TurnEnds(TurnEvents(first, pending, env, batch)) == [TurnEnd(FromAssistant(env.final), batch.results)]
  {
    var opening, end := TurnOpening(first, pending, env), TurnEnd(FromAssistant(env.final), batch.results);
    PairsEndNoTurn(pending);
    RelayedEndsNoTurn(env.stream, false);
    NoTurnEnds(opening + batch.events);
    TurnEndsConcat(opening + batch.events, [end]);
    TurnEndsOne(end);
  }

  // ---------- Whole runs ----------

  ghost predicate ReportsTurns(trace: seq<Event>, turns: seq<Turn>) {
    TurnEnds(trace) == Reports(turns)
  }

  lemma OneMoreReported(trace: seq<Event>, turns: seq<Turn>, events: seq<Event>, turn: Turn)
    requires ReportsTurns(trace, turns) && TurnEnds(events) == [TurnEnd(FromAssistant(turn.message), turn.results)]
    ensures ReportsTurns(trace + events, turns + [turn])
  {
    TurnEndsConcat(trace, events);
    assert Reports(turns + [turn]) == Reports(turns) + [TurnEnd(FromAssistant(turn.message), turn.results)];
  }

  lemma RunTurnReports(r: Loop, env: TurnEnv, mode: Mode)
    requires ReportsTurns(r.trace, r.turns)
    ensures var t := RunTurn(r, env, mode); ReportsTurns(t.trace, t.turns)
  {
    var batch := TurnBatch(r.context.tools, mode, env);
    var turn := Turn(r.origin, r.pending, env.final, batch.results, !batch.terminate, batch.executed);
    BatchEndsNoTurn(r.context.tools, mode, env);
    TurnReportsItself(r.turns == [], r.pending, env, batch);
    OneMoreReported(r.trace, r.turns, TurnEvents(r.turns == [], r.pending, env, batch), turn);
  }

  lemma EndReportsNoTurn(trace: seq<Event>, turns: seq<Turn>, end: seq<Event>, messages: seq<Message>)
    requires ReportsTurns(trace, turns) && (end == [] || end == [AgentEnd(messages)])
    ensures ReportsTurns(trace + end, turns)
  {
    TurnEndsConcat(trace, end);
    TurnEndsOne(AgentEnd(messages));
  }

  lemma StepReports(r: Loop, env: TurnEnv, mode: Mode)
    requires !r.finished && ReportsTurns(r.trace, r.turns)
    ensures var s := Step(r, env, mode); ReportsTurns(s.trace, s.turns)
  {
    var t, s := RunTurn(r, env, mode), Step(r, env, mode);
    RunTurnReports(r, env, mode);
    StepTrace(r, env, mode);
    EndReportsNoTurn(t.trace, t.turns, if s.finished then [AgentEnd(t.newMessages)] else [], t.newMessages);
  }

  /** The turn_end events of any part of a run are those of its turns, in order, with their responses and replies. */
  lemma RunReports(
    context: Context, prompts: seq<Message>, steering: seq<Message>, followUp: seq<Message>, poll: Poll, skip: bool,
    script: seq<TurnEnv>, mode: Mode)
    ensures var r := Run(Begun(context, prompts, steering, followUp, poll, skip), script, mode);
            ReportsTurns(r.trace, r.turns)
  {
    var s := Begun(context, prompts, steering, followUp, poll, skip);
    PairsEndNoTurn(prompts);
    NoTurnEnds([AgentStart, TurnStart] + Pairs(prompts));
    var p := (r: Loop, done: seq<TurnEnv>) => ReportsTurns(r.trace, r.turns);
    forall r, done, env | p(r, done) ensures p(Next(mode)(r, env), done + [env]) {
      if !r.finished {
        StepReports(r, env, mode);
      }
    }
    RunInduction(s, script, mode, p);
  }

  // ---------- The error shown after a run ----------

  lemma {:induction false} ErrorComesFromTurnEnds(v: View, trace: seq<Event>)
    ensures ReduceAll(v, trace).errorMessage == ReduceAll(v, TurnEnds(trace)).errorMessage
  {
    if trace != [] {
      var init, e := trace[..|trace| - 1], trace[|trace| - 1];
      ErrorComesFromTurnEnds(v, init);
      if e.TurnEnd? {
        ReduceOneMore(v, TurnEnds(init), e);
      } else {
        assert TurnEnds(init) + [] == TurnEnds(init);
      }
    }
  }

  ghost predicate NoErrorInTurnsFrom(turns: seq<Turn>, i: nat) {
    forall j :: i <= j < |turns| ==> !HasError(turns[j].message)
  }

  /** The error of the last of these turns that has one, or none. */
  ghost predicate IsErrorOf(error: Option<string>, turns: seq<Turn>) {
    && (NoErrorInTurnsFrom(turns, 0) ==> error.None?)
    && (forall i: nat :: i < |turns| && HasError(turns[i].message) && NoErrorInTurnsFrom(turns, i + 1) ==>
          error == turns[i].message.errorMessage)
  }

  lemma ReportsShowError(v: View, turns: seq<Turn>)
    requires v.errorMessage.None?
    ensures IsErrorOf(ReduceAll(v, Reports(turns)).errorMessage, turns)
  {
    var reports := Reports(turns);
    ErrorFollowsTrace(v, reports);
    forall i: nat | NoErrorInTurnsFrom(turns, i) ensures NoErrorFrom(reports, i) {
    }
    forall i: nat | i < |turns| && HasError(turns[i].message) && NoErrorInTurnsFrom(turns, i + 1)
      ensures ReduceAll(v, reports).errorMessage == turns[i].message.errorMessage
    {
      assert ReportsError(reports[i]) && NoErrorFrom(reports, i + 1);
    }
  }

  /**
   * After any run the agent shows the error of the last turn that had one, such as the failed response that ended it,
   * and no error if none had, whatever it showed before.
   */
  lemma SessionShowsError(start: Start, tools: seq<Tool>, mode: Mode, poll: Poll, script: seq<TurnEnv>)
    ensures IsErrorOf(StartRun(start, tools, mode, poll, script).view.errorMessage,
                      RunOf(start, tools, mode, poll, script).turns)
  {
    var s, r := start.session, RunOf(start, tools, mode, poll, script);
    var v := s.view.(streaming := None, errorMessage := None);
    RunReports(
      Context(s.view.messages, tools), start.prompts, s.steering.waiting, s.followUp.waiting, poll, start.skip,
      script, mode);
    ErrorComesFromTurnEnds(v, r.trace);
    ReportsShowError(v, r.turns);
  }
}
