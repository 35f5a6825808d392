/** The pending calls of the agent's state over a whole run. */
module RunPending {
  import opened AgentTypes
  import opened AgentState
  import opened ToolBatch
  import opened BatchTheorems
  import opened LoopModel
  import opened LoopTheorems

  /** The call ids the turns asked for; a failed response asks for none. */
  function CallIds(turns: seq<Turn>): seq<string> {
    if turns == [] then []
    else CallIds(turns[..|turns| - 1]) + IdsAsked(turns[|turns| - 1].message)
  }

  function IdsAsked(message: Assistant): seq<string> {
    if message.Failed() then [] else Ids(ToolCalls(message.blocks))
  }

  /** Every one of these ids lives at most one life in the trace, and no other id is in it. */
  ghost predicate LivesIn(t: seq<Event>, ids: seq<string>) {
    forall id :: OfCall(t, id) == [] || (id in ids && HasLife(OfCall(t, id)))
  }

  lemma DistinctParts(a: seq<string>, b: seq<string>)
    requires Distinct(a + b)
    ensures Distinct(a) && Distinct(b) && forall id :: id in a ==> id !in b
  {
    var ids := a + b;
    assert forall i :: 0 <= i < |a| ==> ids[i] == a[i];
    assert forall i :: 0 <= i < |b| ==> ids[|a| + i] == b[i];
  }

  lemma LivesConcat(s: seq<Event>, t: seq<Event>, a: seq<string>, b: seq<string>)
    requires LivesIn(s, a) && LivesIn(t, b) && Distinct(a + b)
    ensures LivesIn(s + t, a + b)
  {
    DistinctParts(a, b);
    forall id ensures OfCall(s + t, id) == [] || (id in a + b && HasLife(OfCall(s + t, id))) {
      OfCallConcat(s, t, id);
      if OfCall(t, id) == [] {
        assert OfCall(s, id) + [] == OfCall(s, id);
      } else {
        assert OfCall(s, id) == [];
        assert [] + OfCall(t, id) == OfCall(t, id);
      }
    }
  }

  ghost predicate NoTools(t: seq<Event>) {
    forall e :: e in t ==> !e.IsTool()
  }

  lemma NoToolsNoLives(t: seq<Event>)
    requires NoTools(t)
    ensures LivesIn(t, [])
  {
    forall id ensures OfCall(t, id) == [] {
      OfCallMembers(t, id);
    }
  }

  // ---------- One turn ----------

  lemma {:induction false} RelayedHasNoTools(stream: seq<StreamEvent>, open: bool)
    ensures NoTools(Relayed(stream, open))
  {
    if stream != [] && !stream[0].Terminal? {
      RelayedHasNoTools(stream[1..], if stream[0].Begin? then true else open);
    }
  }

  lemma {:induction false} PairsHaveNoTools(ms: seq<Message>)
    ensures NoTools(Pairs(ms))
  {
    if ms != [] {
      PairsHaveNoTools(ms[..|ms| - 1]);
    }
  }

  lemma OpeningHasNoTools(first: bool, pending: seq<Message>, env: TurnEnv)
    ensures NoTools(TurnOpening(first, pending, env))
  {
    PairsHaveNoTools(pending);
    RelayedHasNoTools(env.stream, false);
  }

  lemma RefusalLives(call: ToolCall)
    ensures LivesIn([ToolStart(call), End(TruncatedOutcome(call))] + Pair(Reply(TruncatedOutcome(call))), [call.id])
  {
    var life, reply := [ToolStart(call), End(TruncatedOutcome(call))], Pair(Reply(TruncatedOutcome(call)));
    forall id ensures OfCall(life, id) == [] || (id in [call.id] && HasLife(OfCall(life, id))) {
      OfCallMembers(life, id);
      assert IsLife(life, call);
    }
    NoToolsNoLives(reply);
    assert [call.id] + [] == [call.id];
    LivesConcat(life, reply, [call.id], []);
  }

  lemma {:induction false} TruncatedLives(calls: seq<ToolCall>)
    requires Distinct(Ids(calls))
    ensures LivesIn(TruncatedEvents(calls), Ids(calls))
  {
    if calls == [] {
      NoToolsNoLives([]);
    } else {
      var init, call := calls[..|calls| - 1], calls[|calls| - 1];
      assert Ids(calls) == Ids(init) + [call.id];
      DistinctParts(Ids(init), [call.id]);
      TruncatedLives(init);
      RefusalLives(call);
      LivesConcat(
        TruncatedEvents(init), [ToolStart(call), End(TruncatedOutcome(call))] + Pair(Reply(TruncatedOutcome(call))),
        Ids(init), [call.id]);
    }
  }

  lemma ExecutedLives(tools: seq<Tool>, mode: Mode, calls: seq<ToolCall>, envs: seq<CallEnv>, schedule: seq<nat>)
    requires |calls| == |envs| && Distinct(Ids(calls))
    ensures LivesIn(ExecuteBatch(tools, mode, calls, envs, schedule).events, Ids(calls))
  {
    var t := ExecuteBatch(tools, mode, calls, envs, schedule).events;
    forall id ensures OfCall(t, id) == [] || (id in Ids(calls) && HasLife(OfCall(t, id))) {
      OwnIsOneLife(tools, mode, calls, envs, schedule, id);
      OwnEvents(tools, mode, calls, envs, schedule, id);
      assert forall i :: 0 <= i < Reached(envs) ==> Ids(calls[..Reached(envs)])[i] == Ids(calls)[i];
    }
  }

  lemma BatchLives(tools: seq<Tool>, mode: Mode, env: TurnEnv)
    requires Distinct(IdsAsked(env.final))
    ensures LivesIn(TurnBatch(tools, mode, env).events, IdsAsked(env.final))
  {
    var calls := ToolCalls(env.final.blocks);
    if env.final.Failed() || calls == [] {
      NoToolsNoLives([]);
    } else if env.final.stopReason.Length? {
      TruncatedLives(calls);
    } else {
      ExecutedLives(tools, mode, calls, Answers(env.calls, |calls|), env.schedule);
    }
  }

  lemma TurnLives(first: bool, pending: seq<Message>, env: TurnEnv, batch: Batch, ids: seq<string>)
    requires LivesIn(batch.events, ids) && Distinct(ids)
    ensures LivesIn(TurnEvents(first, pending, env, batch), ids)
  {
    var opening, end := TurnOpening(first, pending, env), [TurnEnd(FromAssistant(env.final), batch.results)];
    OpeningHasNoTools(first, pending, env);
    NoToolsNoLives(opening);
    NoToolsNoLives(end);
    assert [] + ids == ids && ids + [] == ids;
    LivesConcat(opening, batch.events, [], ids);
    LivesConcat(opening + batch.events, end, ids, []);
  }

  // ---------- Whole runs ----------

  /** While no call id is asked for twice, every id lives at most once in what has been emitted. */
  ghost predicate LivesOnce(r: Loop) {
    Distinct(CallIds(r.turns)) ==> LivesIn(r.trace, CallIds(r.turns))
  }

  lemma RunTurnLives(r: Loop, env: TurnEnv, mode: Mode)
    requires LivesOnce(r)
    ensures LivesOnce(RunTurn(r, env, mode))
  {
    var batch := TurnBatch(r.context.tools, mode, env);
    var t, ids := RunTurn(r, env, mode), IdsAsked(env.final);
    assert t.turns[..|r.turns|] == r.turns;
    assert CallIds(t.turns) == CallIds(r.turns) + ids;
    if Distinct(CallIds(r.turns) + ids) {
      DistinctParts(CallIds(r.turns), ids);
      BatchLives(r.context.tools, mode, env);
      TurnLives(r.turns == [], r.pending, env, batch, ids);
      LivesConcat(r.trace, TurnEvents(r.turns == [], r.pending, env, batch), CallIds(r.turns), ids);
    }
  }

  lemma StepLives(r: Loop, env: TurnEnv, mode: Mode)
    requires LivesOnce(r) && !r.finished
    ensures LivesOnce(Step(r, env, mode))
  {
    var t := RunTurn(r, env, mode);
    RunTurnLives(r, env, mode);
    StepTrace(r, env, mode);
    if Distinct(CallIds(t.turns)) {
      NoToolsNoLives([AgentEnd(t.newMessages)]);
      assert CallIds(t.turns) + [] == CallIds(t.turns) && t.trace + [] == t.trace;
      LivesConcat(t.trace, [AgentEnd(t.newMessages)], CallIds(t.turns), []);
    }
  }

  lemma BegunLives(
    context: Context, prompts: seq<Message>, steering: seq<Message>, followUp: seq<Message>, poll: Poll, skip: bool)
    ensures LivesOnce(Begun(context, prompts, steering, followUp, poll, skip))
  {
    PairsHaveNoTools(prompts);
    NoToolsNoLives([AgentStart, TurnStart] + Pairs(prompts));
  }

  lemma RunLives(s: Loop, script: seq<TurnEnv>, mode: Mode)
    requires LivesOnce(s)
    ensures LivesOnce(Run(s, script, mode))
  {
    var p := (r: Loop, done: seq<TurnEnv>) => LivesOnce(r);
    forall r, done, env | p(r, done) ensures p(Next(mode)(r, env), done + [env]) {
      if !r.finished {
        StepLives(r, env, mode);
      }
    }
    RunInduction(s, script, mode, p);
  }

  lemma LivesAreKept(t: seq<Event>, ids: seq<string>)
    requires LivesIn(t, ids)
    ensures NeverRestarted(t)
  {
    forall e | e in t && e.ToolStart? ensures HasLife(OfCall(t, e.call.id)) {
      OfCallMembers(t, e.call.id);
    }
    LivesAreNotRestarted(t);
  }

  /**
   * At every moment of a run whose turns never ask for the same call id twice, the pending calls are those that
   * were started and have not ended, and every id that was started lives exactly one life in the end.
   */
  lemma PendingDuringRun(
    context: Context, prompts: seq<Message>, steering: seq<Message>, followUp: seq<Message>, poll: Poll, skip: bool,
    script: seq<TurnEnv>, mode: Mode, v: View, k: nat)
    requires v.pending == {}
    ensures var r := Run(Begun(context, prompts, steering, followUp, poll, skip), script, mode);
            Distinct(CallIds(r.turns)) && k <= |r.trace| ==>
              LivesIn(r.trace, CallIds(r.turns)) &&
              ReduceAll(v, r.trace[..k]).pending == StartedIds(r.trace[..k]) - EndedIds(r.trace[..k])
  {
    var s := Begun(context, prompts, steering, followUp, poll, skip);
    BegunLives(context, prompts, steering, followUp, poll, skip);
    RunLives(s, script, mode);
    var r := Run(s, script, mode);
    if Distinct(CallIds(r.turns)) {
      LivesAreKept(r.trace, CallIds(r.turns));
      PendingExact(v, r.trace);
    }
  }
}
