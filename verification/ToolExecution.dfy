/** The tool-execution half of the agent loop, step by step, emitting into the agent's state. */
module ToolExecution {
  import opened AgentTypes
  import opened Sequences
  import opened ToolBatch
  import opened ToolReports
  import opened ToolOutcomes

  /** The tools as running code; remembers, in order, the calls whose `execute` was invoked. */
  class ToolHost {
    ghost var executed: seq<ToolCall>

    constructor ()
      ensures executed == []
    {
      executed := [];
    }

    method Execute(call: ToolCall, env: CallEnv) returns (execution: Execution)
      modifies this
      ensures execution == env.execution && executed == old(executed) + [call]
    {
      executed := executed + [call];
      execution := env.execution;
    }
  }

  /**
   * A started tool together with the closure that waits for it: the tool may report at any time, also when
   * nobody waits any more, and `acceptingUpdates` decides whether a listener hears of it.
   */
  class RunningCall {
    const call: ToolCall
    const settlement: Execution
    const after: After
    var steps: seq<ToolStep>
    var acceptingUpdates: bool

    ghost function View(): Running
      reads this
    {
      Running(call, settlement, after, steps, acceptingUpdates)
    }

    constructor (call: ToolCall, settlement: Execution, after: After, steps: seq<ToolStep>)
      ensures View() == Running(call, settlement, after, steps, true)
    {
      this.call, this.settlement, this.after := call, settlement, after;
      this.steps, acceptingUpdates := steps, true;
    }

    /** The callback handed to the tool. */
    method OnUpdate(partial: string, log: EventLog)
      modifies log
      ensures log.trace == old(log.trace) + if acceptingUpdates then [ToolUpdate(call, partial)] else []
    {
      if !acceptingUpdates { return; }
      log.Emit(ToolUpdate(call, partial));
    }

    method Settled() returns (result: ToolResult, isError: bool)
      modifies this`acceptingUpdates
      ensures !acceptingUpdates && (result, isError) == Settle(settlement)
    {
      acceptingUpdates := false;
      match settlement {
        case Returned(r) => result, isError := r, false;
        case Rejected(message) => result, isError := ErrorResult(Threw(message)), true;
      }
    }

    /** Lets the next thing happen to the call. */
    method Step(log: EventLog)
      requires steps != []
      modifies this, log
      ensures View() == AfterStep(old(View())) && log.trace == old(log.trace) + Shows(old(View()))
    {
      match steps[0] {
        case Reported(partial) =>
          OnUpdate(partial, log);
        case Settling =>
          var result, isError := Settled();
        case Ending =>
          var (result, isError) := Settle(settlement);
          log.Emit(End(Finalize(call, result, isError, after)));
      }
      steps := steps[1..];
    }

    /** Waits for the settlement while the tool reports. */
    method AwaitSettlement(ghost reports: seq<string>, ghost rest: seq<ToolStep>, log: EventLog)
      returns (result: ToolResult, isError: bool)
      requires acceptingUpdates && steps == Reports(reports) + ([Settling] + rest)
      modifies this, log
      ensures View() == Running(call, settlement, after, rest, false)
      ensures log.trace == old(log.trace) + Updates(call, reports) && (result, isError) == Settle(settlement)
    {
      ghost var i := 0;
      assert reports[0..] == reports;
      while !steps[0].Settling?
        invariant i <= |reports| && acceptingUpdates && steps == Reports(reports[i..]) + ([Settling] + rest)
        invariant log.trace == old(log.trace) + Updates(call, reports[..i])
        decreases |steps|
      {
        assert i < |reports| && steps[0] == Reported(reports[i]);
        assert Updates(call, reports[..i + 1]) == Updates(call, reports[..i]) + [ToolUpdate(call, reports[i])];
        Step(log);
        assert steps == Reports(reports[i + 1..]) + ([Settling] + rest);
        i := i + 1;
      }
      assert i == |reports| && reports[..i] == reports;
      result, isError := Settled();
      steps := steps[1..];
    }

    /** Everything that is left to happen to the call happens. */
    method RunOut(log: EventLog)
      modifies this, log
      ensures steps == [] && log.trace == old(log.trace) + Emitted(old(View()))
    {
      ghost var shown: seq<Event> := [];
      while steps != []
        invariant log.trace == old(log.trace) + shown
        invariant shown + Emitted(View()) == Emitted(old(View()))
        decreases |steps|
      {
        Assoc(shown, Shows(View()), Emitted(AfterStep(View())));
        shown := shown + Shows(View());
        Step(log);
      }
    }
  }

  method EmitMessage(message: Message, log: EventLog)
    modifies log
    ensures log.trace == old(log.trace) + Pair(message)
  {
    log.Emit(MessageStart(message));
    log.Emit(MessageEnd(message));
  }

  method FailTruncatedCall(call: ToolCall, log: EventLog) returns (message: Message)
    modifies log
    ensures message == Reply(TruncatedOutcome(call))
    ensures log.trace == old(log.trace) + ([ToolStart(call), End(TruncatedOutcome(call))] + Pair(message))
  {
    log.Emit(ToolStart(call));
    var finalized := TruncatedOutcome(call);
    log.Emit(End(finalized));
    message := Reply(finalized);
    EmitMessage(message, log);
  }

  method FailToolCallsFromTruncatedMessage(calls: seq<ToolCall>, log: EventLog)
    returns (messages: seq<Message>, terminate: bool)
    modifies log
    ensures var batch := TruncatedBatch(calls);
            messages == batch.results && terminate == batch.terminate && log.trace == old(log.trace) + batch.events
  {
    messages := [];
    for i := 0 to |calls|
      invariant messages == TruncatedBatch(calls[..i]).results
      invariant log.trace == old(log.trace) + TruncatedEvents(calls[..i])
    {
      var message := FailTruncatedCall(calls[i], log);
      messages := messages + [message];
      assert calls[..i + 1][..i] == calls[..i];
    }
    assert calls[..|calls|] == calls;
    terminate := false;
  }

  /**
   * Runs the tool. Exactly its reports up to the settlement are emitted, in order; from then on updates are
   * no longer accepted, so all that the rest of the call will show is its end.
   */
  method ExecutePreparedToolCall(call: ToolCall, env: CallEnv, log: EventLog, host: ToolHost)
    returns (result: ToolResult, isError: bool, running: RunningCall)
    modifies log, host
    ensures host.executed == old(host.executed) + [call]
    ensures (result, isError) == Settle(env.execution) && IsOwn(env, result, isError)
    ensures log.trace == old(log.trace) + Updates(call, env.reports[..SettledAt(env)])
    ensures fresh(running) && !running.acceptingUpdates
    ensures Emitted(running.View()) == [End(Finalize(call, result, isError, env.after))]
  {
    ghost var k, m := SettledAt(env), EndedAt(env);
    var execution := host.Execute(call, env);
    running := new RunningCall(call, execution, env.after, Steps(env));
    result, isError :=
      running.AwaitSettlement(
        env.reports[..k], Reports(env.reports[k..m]) + ([Ending] + Reports(env.reports[m..])), log);
    SettledShowsEnd(running.View(), env.reports[k..m], env.reports[m..]);
  }

  /** A prepared call from its execution to its end. */
  method FinishPrepared(call: ToolCall, env: CallEnv, log: EventLog, host: ToolHost) returns (finalized: Finalized)
    modifies log, host
    ensures var (result, isError) := Settle(env.execution); finalized == Finalize(call, result, isError, env.after)
    ensures log.trace == old(log.trace) + (Updates(call, env.reports[..SettledAt(env)]) + [End(finalized)])
    ensures host.executed == old(host.executed) + [call]
  {
    var result, isError, running := ExecutePreparedToolCall(call, env, log, host);
    finalized := Finalize(call, result, isError, env.after);
    // Reports that come later, even after the end or the reply, change neither the log nor the flag.
    running.RunOut(log);
    Assoc(old(log.trace), Updates(call, env.reports[..SettledAt(env)]), [End(finalized)]);
  }

  method HandleSequentialCall(tools: seq<Tool>, call: ToolCall, env: CallEnv, log: EventLog, host: ToolHost)
    returns (finalized: Finalized)
    modifies log, host
    ensures finalized == Outcome(tools, call, env)
    ensures log.trace == old(log.trace) + WholeCall(tools, call, env)
    ensures host.executed == old(host.executed) + Invocation(tools, call, env)
  {
    log.Emit(ToolStart(call));
    match Prepare(tools, call, env) {
      case Immediate(result, isError) =>
        finalized := Finalized(call, result, isError);
        log.Emit(End(finalized));
      case Prepared =>
        finalized := FinishPrepared(call, env, log, host);
    }
    assert log.trace == old(log.trace) + Life(tools, call, env);
    EmitMessage(Reply(finalized), log);
    Assoc(old(log.trace), Life(tools, call, env), Pair(Reply(finalized)));
  }

  lemma OneMoreHandled(tools: seq<Tool>, calls: seq<ToolCall>, envs: seq<CallEnv>, n: nat)
    requires n < |calls| == |envs|
    ensures var f, fs := Outcome(tools, calls[n], envs[n]), Outcomes(tools, calls, envs, n);
            Outcomes(tools, calls, envs, n + 1) == fs + [f] && Replies(fs + [f]) == Replies(fs) + [Reply(f)]
    ensures SequentialEvents(tools, calls, envs, n + 1) ==
            SequentialEvents(tools, calls, envs, n) + WholeCall(tools, calls[n], envs[n])
    ensures Executed(tools, calls, envs, n + 1) ==
            Executed(tools, calls, envs, n) + Invocation(tools, calls[n], envs[n])
  {
    var fs := Outcomes(tools, calls, envs, n);
    assert (fs + [Outcome(tools, calls[n], envs[n])])[..|fs|] == fs;
  }

  method ExecuteToolCallsSequential(
    tools: seq<Tool>, calls: seq<ToolCall>, envs: seq<CallEnv>, log: EventLog, host: ToolHost)
    returns (messages: seq<Message>, terminate: bool)
    requires |calls| == |envs|
    modifies log, host
    ensures var batch := SequentialBatch(tools, calls, envs);
            messages == batch.results && terminate == batch.terminate &&
            log.trace == old(log.trace) + batch.events && host.executed == old(host.executed) + batch.executed
  {
    var finalizedCalls: seq<Finalized> := [];
    messages := [];
    var n := 0;
    while n < |calls|
      invariant n <= |calls|
      invariant n <= Reached(envs) && (n > 0 ==> !envs[n - 1].abortedAfter)
      invariant finalizedCalls == Outcomes(tools, calls, envs, n) && messages == Replies(finalizedCalls)
      invariant log.trace == old(log.trace) + SequentialEvents(tools, calls, envs, n)
      invariant host.executed == old(host.executed) + Executed(tools, calls, envs, n)
    {
      var finalized := HandleSequentialCall(tools, calls[n], envs[n], log, host);
      OneMoreHandled(tools, calls, envs, n);
      Assoc(old(log.trace), SequentialEvents(tools, calls, envs, n), WholeCall(tools, calls[n], envs[n]));
      Assoc(old(host.executed), Executed(tools, calls, envs, n), Invocation(tools, calls[n], envs[n]));
      finalizedCalls := finalizedCalls + [finalized];
      messages := messages + [Reply(finalized)];
      n := n + 1;
      if envs[n - 1].abortedAfter {
        break;
      }
    }
    assert n == Reached(envs);
    terminate := Terminates(finalizedCalls);
  }

  /** What preparation leaves for later: an outcome already known, or a closure still to be started. */
  datatype Entry = Known(finalized: Finalized) | Deferred(call: ToolCall, env: CallEnv)

  function EntryOf(tools: seq<Tool>, call: ToolCall, env: CallEnv): Entry {
    if Prepare(tools, call, env).Prepared? then Deferred(call, env) else Known(Outcome(tools, call, env))
  }

  function Entries(tools: seq<Tool>, calls: seq<ToolCall>, envs: seq<CallEnv>, n: nat): (entries: seq<Entry>)
    requires n <= |calls| == |envs|
    ensures |entries| == n
    ensures forall i :: 0 <= i < n ==> entries[i] == EntryOf(tools, calls[i], envs[i])
  {
    if n == 0 then [] else Entries(tools, calls, envs, n - 1) + [EntryOf(tools, calls[n - 1], envs[n - 1])]
  }

  method PrepareEntry(tools: seq<Tool>, call: ToolCall, env: CallEnv, log: EventLog) returns (entry: Entry)
    modifies log
    ensures entry == EntryOf(tools, call, env) && log.trace == old(log.trace) + Opening(tools, call, env)
  {
    log.Emit(ToolStart(call));
    match Prepare(tools, call, env) {
      case Immediate(result, isError) =>
        var finalized := Finalized(call, result, isError);
        log.Emit(End(finalized));
        entry := Known(finalized);
      case Prepared =>
        entry := Deferred(call, env);
    }
  }

  method PrepareCalls(tools: seq<Tool>, calls: seq<ToolCall>, envs: seq<CallEnv>, log: EventLog)
    returns (entries: seq<Entry>)
    requires |calls| == |envs|
    modifies log
    ensures entries == Entries(tools, calls, envs, Reached(envs))
    ensures log.trace == old(log.trace) + PreparationEvents(tools, calls, envs, Reached(envs))
  {
    entries := [];
    var n := 0;
    while n < |calls|
      invariant n <= Reached(envs) && (n > 0 ==> !envs[n - 1].abortedAfter)
      invariant entries == Entries(tools, calls, envs, n)
      invariant log.trace == old(log.trace) + PreparationEvents(tools, calls, envs, n)
    {
      var entry := PrepareEntry(tools, calls[n], envs[n], log);
      Assoc(old(log.trace), PreparationEvents(tools, calls, envs, n), Opening(tools, calls[n], envs[n]));
      entries := entries + [entry];
      n := n + 1;
      if envs[n - 1].abortedAfter {
        break;
      }
    }
    assert n == Reached(envs);
  }

  method StartEntry(ghost tools: seq<Tool>, ghost call: ToolCall, ghost env: CallEnv, entry: Entry, host: ToolHost)
    returns (finalized: Finalized, running: RunningCall)
    requires entry == EntryOf(tools, call, env)
    modifies host
    ensures finalized == Outcome(tools, call, env) && fresh(running) && running.View() == Launched(tools, call, env)
    ensures host.executed == old(host.executed) + Invocation(tools, call, env)
  {
    match entry {
      case Known(f) =>
        finalized := f;
        running := new RunningCall(f.call, Returned(f.result), NoAfter, []);
      case Deferred(c, e) =>
        var execution := host.Execute(c, e);
        var (result, isError) := Settle(execution);
        finalized := Finalize(c, result, isError, e.after);
        running := new RunningCall(c, execution, e.after, Steps(e));
    }
  }

  ghost predicate Apart(runs: seq<RunningCall>) {
    forall i, j :: 0 <= i < j < |runs| ==> runs[i] != runs[j]
  }

  ghost function Views(runs: seq<RunningCall>): seq<Running>
    reads runs
  {
    seq(|runs|, i requires 0 <= i < |runs| reads runs => runs[i].View())
  }

  lemma OneMoreLaunch(tools: seq<Tool>, calls: seq<ToolCall>, envs: seq<CallEnv>, n: nat)
    requires n < |calls| == |envs|
    ensures Launches(tools, calls, envs, n + 1) ==
            Launches(tools, calls, envs, n) + [Launched(tools, calls[n], envs[n])]
  {
  }

  lemma OneMoreView(runs: seq<RunningCall>, running: RunningCall)
    requires Apart(runs) && running !in runs
    ensures Apart(runs + [running]) && Views(runs + [running]) == Views(runs) + [running.View()]
  {
  }

  method StartEntries(
    ghost tools: seq<Tool>, ghost calls: seq<ToolCall>, ghost envs: seq<CallEnv>, entries: seq<Entry>, host: ToolHost)
    returns (finalizedCalls: seq<Finalized>, runs: seq<RunningCall>)
    requires |entries| <= |calls| == |envs| && entries == Entries(tools, calls, envs, |entries|)
    modifies host
    ensures finalizedCalls == Outcomes(tools, calls, envs, |entries|)
    ensures (forall i :: 0 <= i < |runs| ==> fresh(runs[i])) && Apart(runs)
    ensures Views(runs) == Launches(tools, calls, envs, |entries|)
    ensures host.executed == old(host.executed) + Executed(tools, calls, envs, |entries|)
  {
    finalizedCalls, runs := [], [];
    for n := 0 to |entries|
      invariant finalizedCalls == Outcomes(tools, calls, envs, n)
      invariant (forall i :: 0 <= i < |runs| ==> fresh(runs[i])) && Apart(runs)
      invariant Views(runs) == Launches(tools, calls, envs, n)
      invariant host.executed == old(host.executed) + Executed(tools, calls, envs, n)
    {
      ghost var before := Views(runs);
      var finalized, running := StartEntry(tools, calls[n], envs[n], entries[n], host);
      assert Views(runs) == before;
      OneMoreView(runs, running);
      OneMoreLaunch(tools, calls, envs, n);
      Assoc(old(host.executed), Executed(tools, calls, envs, n), Invocation(tools, calls[n], envs[n]));
      finalizedCalls := finalizedCalls + [finalized];
      runs := runs + [running];
    }
  }

  /** Runs the started calls to their end, the scheduler choosing to whom something happens next. */
  method RunRace(runs: seq<RunningCall>, schedule: seq<nat>, log: EventLog)
    requires Apart(runs)
    modifies runs, log
    ensures log.trace == old(log.trace) + Race(old(Views(runs)), schedule)
  {
    var i := 0;
    ghost var shown: seq<Event> := [];
    while i < |schedule|
      invariant i <= |schedule|
      invariant log.trace == old(log.trace) + shown
      invariant shown + Race(Views(runs), schedule[i..]) == Race(old(Views(runs)), schedule)
    {
      var p := schedule[i];
      ghost var views := Views(runs);
      assert schedule[i..][1..] == schedule[i + 1..];
      if p < |runs| && runs[p].steps != [] {
        runs[p].Step(log);
        assert Views(runs) == RunStep(views, p);
        Assoc(shown, Shows(views[p]), Race(Views(runs), schedule[i + 1..]));
        shown := shown + Shows(views[p]);
      }
      i := i + 1;
    }
    ghost var left := Views(runs);
    assert shown + Flatten(AllEmitted(left)) == Race(old(Views(runs)), schedule);
    RunOutAll(runs, log);
    Assoc(old(log.trace), shown, Flatten(AllEmitted(left)));
  }

  lemma FlattenHead(views: seq<Running>)
    requires views != []
    ensures Flatten(AllEmitted(views)) == Emitted(views[0]) + Flatten(AllEmitted(views[1..]))
  {
    assert AllEmitted(views)[1..] == AllEmitted(views[1..]);
  }

  /** The calls still running run out, one after the other. */
  method RunOutAll(runs: seq<RunningCall>, log: EventLog)
    requires Apart(runs)
    modifies runs, log
    ensures log.trace == old(log.trace) + Flatten(AllEmitted(old(Views(runs))))
  {
    if runs == [] {
      return;
    }
    ghost var views := Views(runs);
    FlattenHead(views);
    var others := runs[1..];
    runs[0].RunOut(log);
    assert Views(others) == views[1..];
    RunOutAll(others, log);
    Assoc(old(log.trace), Emitted(views[0]), Flatten(AllEmitted(views[1..])));
  }

  method EmitReplies(finalizedCalls: seq<Finalized>, log: EventLog) returns (messages: seq<Message>)
    modifies log
    ensures messages == Replies(finalizedCalls) && log.trace == old(log.trace) + Pairs(messages)
  {
    messages := [];
    for i := 0 to |finalizedCalls|
      invariant messages == Replies(finalizedCalls[..i]) && log.trace == old(log.trace) + Pairs(messages)
    {
      var message := Reply(finalizedCalls[i]);
      EmitMessage(message, log);
      Assoc(old(log.trace), Pairs(messages), Pair(message));
      assert finalizedCalls[..i + 1][..i] == finalizedCalls[..i];
      assert (messages + [message])[..|messages|] == messages;
      messages := messages + [message];
    }
    assert finalizedCalls[..|finalizedCalls|] == finalizedCalls;
  }

  method ExecuteToolCallsParallel(
    tools: seq<Tool>, calls: seq<ToolCall>, envs: seq<CallEnv>, schedule: seq<nat>, log: EventLog, host: ToolHost)
    returns (messages: seq<Message>, terminate: bool)
    requires |calls| == |envs|
    modifies log, host
    ensures var batch := ParallelBatch(tools, calls, envs, schedule);
            messages == batch.results && terminate == batch.terminate &&
            log.trace == old(log.trace) + batch.events && host.executed == old(host.executed) + batch.executed
  {
    var entries := PrepareCalls(tools, calls, envs, log);
    var finalizedCalls, runs := StartEntries(tools, calls, envs, entries, host);
    ghost var race := Race(Views(runs), schedule);
    RunRace(runs, schedule, log);
    messages := EmitReplies(finalizedCalls, log);
    terminate := Terminates(finalizedCalls);
    Assoc(old(log.trace), PreparationEvents(tools, calls, envs, |entries|), race);
    Assoc(old(log.trace), PreparationEvents(tools, calls, envs, |entries|) + race, Pairs(messages));
  }

  method ExecuteToolCalls(
    tools: seq<Tool>, mode: Mode, calls: seq<ToolCall>, envs: seq<CallEnv>, schedule: seq<nat>,
    log: EventLog, host: ToolHost)
    returns (messages: seq<Message>, terminate: bool)
    requires |calls| == |envs|
    modifies log, host
    ensures var batch := ExecuteBatch(tools, mode, calls, envs, schedule);
            messages == batch.results && terminate == batch.terminate &&
            log.trace == old(log.trace) + batch.events && host.executed == old(host.executed) + batch.executed
  {
    if RunsSequentially(tools, mode, calls) {
      messages, terminate := ExecuteToolCallsSequential(tools, calls, envs, log, host);
    } else {
      messages, terminate := ExecuteToolCallsParallel(tools, calls, envs, schedule, log, host);
    }
  }
}
