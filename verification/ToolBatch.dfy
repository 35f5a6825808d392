/** One assistant message's tool calls: preparing, executing, finalizing, in sequence or interleaved. */
module ToolBatch {
  import opened Options
  import opened AgentTypes

  datatype Mode = Sequential | Parallel

  datatype Tool = Tool(name: string, mode: Option<Mode>)

  // What the environment answers while one call is processed.

  datatype Before = NoBefore | BeforeThrows(message: string) | BeforeReturns(block: bool, reason: Option<string>)

  datatype Execution = Returned(result: ToolResult) | Rejected(message: string)

  datatype Override = Override(
    content: Option<seq<Part>>, details: Option<string>, usage: Option<string>,
    terminate: Option<bool>, isError: Option<bool>)

  datatype After = NoAfter | AfterThrows(message: string) | AfterReturns(override: Option<Override>)

  datatype CallEnv = CallEnv(
    invalid: Option<string>,   // argument preparation or validation throws this message
    before: Before,
    abortedAtGate: bool,       // the signal as read at the end of preparation
    reports: seq<string>,      // every partial result the tool ever reports
    settlesAfter: nat,         // how many of them before its settlement is noticed
    endsAfter: nat,            // how many of them before its end is announced
    execution: Execution,
    after: After,
    abortedAfter: bool)        // the signal as read after the call was handled

  datatype Preparation = Immediate(result: ToolResult, isError: bool) | Prepared

  datatype Finalized = Finalized(call: ToolCall, result: ToolResult, isError: bool)

  datatype Batch = Batch(events: seq<Event>, results: seq<Message>, terminate: bool, executed: seq<ToolCall>)

  // ---------- One call ----------

  function FindTool(tools: seq<Tool>, name: string): Option<Tool> {
    if tools == [] then None else if tools[0].name == name then Some(tools[0]) else FindTool(tools[1..], name)
  }

  function ErrorResult(reason: Reason): ToolResult {
    ToolResult(Some([Failure(reason)]), "{}", None, [], None)
  }

  function Prepare(tools: seq<Tool>, call: ToolCall, env: CallEnv): Preparation {
    if FindTool(tools, call.name).None? then Immediate(ErrorResult(ToolNotFound(call.name)), true)
    else if env.invalid.Some? then Immediate(ErrorResult(Threw(env.invalid.value)), true)
    else if env.before.BeforeThrows? then Immediate(ErrorResult(Threw(env.before.message)), true)
    else if env.abortedAtGate then Immediate(ErrorResult(OperationAborted), true)
    else if env.before.BeforeReturns? && env.before.block then
      // An empty reason counts as none: the default wording is used.
      Immediate(ErrorResult(BlockedByHook(if env.before.reason == Some("") then None else env.before.reason)), true)
    else Prepared
  }

  function Settle(execution: Execution): (ToolResult, bool) {
    match execution
    case Returned(result) => (result, false)
    case Rejected(message) => (ErrorResult(Threw(message)), true)
  }

  function Finalize(call: ToolCall, result: ToolResult, isError: bool, after: After): Finalized {
    match after
    case NoAfter => Finalized(call, result, isError)
    case AfterThrows(message) => Finalized(call, ErrorResult(Threw(message)), true)
    case AfterReturns(None) => Finalized(call, result, isError)
    case AfterReturns(Some(o)) =>
      Finalized(
        call,
        result.(content := if o.content.Some? then o.content else result.content,
                details := o.details.GetOr(result.details),
                usage := if o.usage.Some? then o.usage else result.usage,
                terminate := if o.terminate.Some? then o.terminate else result.terminate),
        o.isError.GetOr(isError))
  }

  function Outcome(tools: seq<Tool>, call: ToolCall, env: CallEnv): Finalized {
    match Prepare(tools, call, env)
    case Immediate(result, isError) => Finalized(call, result, isError)
    case Prepared => var (result, isError) := Settle(env.execution); Finalize(call, result, isError, env.after)
  }

  function Reply(f: Finalized): Message {
    FromTool(ToolReply(f.call.id, f.call.name, f.result.content.GetOr([]), f.result.details, f.result.usage,
                       f.result.addedToolNames, f.isError))
  }

  function End(f: Finalized): Event {
    ToolEnd(f.call, f.result, f.isError)
  }

  function Updates(call: ToolCall, updates: seq<string>): seq<Event> {
    seq(|updates|, i requires 0 <= i < |updates| => ToolUpdate(call, updates[i]))
  }

  // ---------- A running tool ----------

  /** What can happen next to a running tool: it reports, its settlement is noticed, its end is announced. */
  datatype ToolStep = Reported(partial: string) | Settling | Ending

  function Reports(reports: seq<string>): seq<ToolStep> {
    seq(|reports|, i requires 0 <= i < |reports| => Reported(reports[i]))
  }

  function SettledAt(env: CallEnv): (n: nat)
    ensures n <= |env.reports|
  {
    if env.settlesAfter <= |env.reports| then env.settlesAfter else |env.reports|
  }

  /** An end is announced after the settlement, and the tool may report after either. */
  function EndedAt(env: CallEnv): (n: nat)
    ensures SettledAt(env) <= n <= |env.reports|
  {
    if env.endsAfter <= SettledAt(env) then SettledAt(env)
    else if env.endsAfter <= |env.reports| then env.endsAfter else |env.reports|
  }

  function Steps(env: CallEnv): seq<ToolStep> {
    var k, m := SettledAt(env), EndedAt(env);
    Reports(env.reports[..k]) + ([Settling] + (Reports(env.reports[k..m]) + ([Ending] + Reports(env.reports[m..]))))
  }

  /** A call whose tool was started, with what has still to happen to it. */
  datatype Running = Running(
    call: ToolCall, settlement: Execution, after: After, steps: seq<ToolStep>, acceptingUpdates: bool)

  function FinishedOf(r: Running): Finalized {
    var (result, isError) := Settle(r.settlement);
    Finalize(r.call, result, isError, r.after)
  }

  /** What a listener sees of the next step: a report passes only while updates are accepted. */
  function Shows(r: Running): seq<Event>
    requires r.steps != []
  {
    match r.steps[0]
    case Reported(partial) => if r.acceptingUpdates then [ToolUpdate(r.call, partial)] else []
    case Settling => []
    case Ending => [End(FinishedOf(r))]
  }

  function AfterStep(r: Running): Running
    requires r.steps != []
  {
    r.(steps := r.steps[1..], acceptingUpdates := r.acceptingUpdates && !r.steps[0].Settling?)
  }

  /** What a listener sees of all the steps left. */
  function Emitted(r: Running): seq<Event>
    decreases |r.steps|
  {
    if r.steps == [] then [] else Shows(r) + Emitted(AfterStep(r))
  }

  /** A call after its preparation; one that was refused has nothing left to do. */
  function Launched(tools: seq<Tool>, call: ToolCall, env: CallEnv): Running {
    if Prepare(tools, call, env).Prepared? then Running(call, env.execution, env.after, Steps(env), true)
    else Running(call, Returned(Outcome(tools, call, env).result), NoAfter, [], true)
  }

  /** What a call still shows once it is running: what it reported before it settled, and its end. */
  function Remaining(tools: seq<Tool>, call: ToolCall, env: CallEnv): seq<Event> {
    if Prepare(tools, call, env).Prepared?
    then Updates(call, env.reports[..SettledAt(env)]) + [End(Outcome(tools, call, env))] else []
  }

  /** Everything a call emits during preparation. */
  function Opening(tools: seq<Tool>, call: ToolCall, env: CallEnv): seq<Event> {
    [ToolStart(call)] + if Prepare(tools, call, env).Prepared? then [] else [End(Outcome(tools, call, env))]
  }

  /** The full life of one call: its start, its updates, its end. */
  function Life(tools: seq<Tool>, call: ToolCall, env: CallEnv): seq<Event> {
    Opening(tools, call, env) + Remaining(tools, call, env)
  }

  /** In sequence a call's reply follows its end at once. */
  function WholeCall(tools: seq<Tool>, call: ToolCall, env: CallEnv): seq<Event> {
    Life(tools, call, env) + Pair(Reply(Outcome(tools, call, env)))
  }

  function Invocation(tools: seq<Tool>, call: ToolCall, env: CallEnv): seq<ToolCall> {
    if Prepare(tools, call, env).Prepared? then [call] else []
  }

  // ---------- Whole batches ----------

  /** How many calls are handled: all of them, or up to the one after which an abort is seen. */
  function Reached(envs: seq<CallEnv>): (n: nat)
    ensures n <= |envs|
    ensures forall i :: 0 <= i < n - 1 ==> !envs[i].abortedAfter
    ensures n < |envs| ==> n > 0 && envs[n - 1].abortedAfter
    ensures envs != [] ==> n > 0
  {
    if envs == [] then 0 else if envs[0].abortedAfter then 1 else 1 + Reached(envs[1..])
  }

  function Outcomes(tools: seq<Tool>, calls: seq<ToolCall>, envs: seq<CallEnv>, n: nat): (fs: seq<Finalized>)
    requires n <= |calls| == |envs|
  {
    if n == 0 then [] else Outcomes(tools, calls, envs, n - 1) + [Outcome(tools, calls[n - 1], envs[n - 1])]
  }

  function Replies(fs: seq<Finalized>): seq<Message> {
    if fs == [] then [] else Replies(fs[..|fs| - 1]) + [Reply(fs[|fs| - 1])]
  }

  function Terminates(fs: seq<Finalized>): bool {
    |fs| > 0 && forall i :: 0 <= i < |fs| ==> fs[i].result.terminate == Some(true)
  }

  function Executed(tools: seq<Tool>, calls: seq<ToolCall>, envs: seq<CallEnv>, n: nat): seq<ToolCall>
    requires n <= |calls| == |envs|
  {
    if n == 0 then []
    else Executed(tools, calls, envs, n - 1) + Invocation(tools, calls[n - 1], envs[n - 1])
  }

  function SequentialEvents(tools: seq<Tool>, calls: seq<ToolCall>, envs: seq<CallEnv>, n: nat): seq<Event>
    requires n <= |calls| == |envs|
  {
    if n == 0 then []
    else SequentialEvents(tools, calls, envs, n - 1) + WholeCall(tools, calls[n - 1], envs[n - 1])
  }

  function PreparationEvents(tools: seq<Tool>, calls: seq<ToolCall>, envs: seq<CallEnv>, n: nat): seq<Event>
    requires n <= |calls| == |envs|
  {
    if n == 0 then []
    else PreparationEvents(tools, calls, envs, n - 1) + Opening(tools, calls[n - 1], envs[n - 1])
  }

  /** The concurrent processes of a parallel batch, each the events it has still to emit. */
  function Processes(tools: seq<Tool>, calls: seq<ToolCall>, envs: seq<CallEnv>, n: nat): seq<seq<Event>>
    requires n <= |calls| == |envs|
  {
    seq(n, i requires 0 <= i < n => Remaining(tools, calls[i], envs[i]))
  }

  function Flatten(processes: seq<seq<Event>>): seq<Event> {
    if processes == [] then [] else processes[0] + Flatten(processes[1..])
  }

  predicate CanStep(processes: seq<seq<Event>>, p: nat) {
    p < |processes| && processes[p] != []
  }

  function StepOf(processes: seq<seq<Event>>, p: nat): seq<seq<Event>>
    requires CanStep(processes, p)
  {
    processes[p := processes[p][1..]]
  }

  function Launches(tools: seq<Tool>, calls: seq<ToolCall>, envs: seq<CallEnv>, n: nat): seq<Running>
    requires n <= |calls| == |envs|
  {
    seq(n, i requires 0 <= i < n => Launched(tools, calls[i], envs[i]))
  }

  function AllEmitted(runs: seq<Running>): seq<seq<Event>> {
    seq(|runs|, i requires 0 <= i < |runs| => Emitted(runs[i]))
  }

  predicate CanRun(runs: seq<Running>, p: nat) {
    p < |runs| && runs[p].steps != []
  }

  function RunStep(runs: seq<Running>, p: nat): seq<Running>
    requires CanRun(runs, p)
  {
    runs[p := AfterStep(runs[p])]
  }

  /** The events emitted when `schedule` picks to whom something happens next; leftovers finish in source order. */
  function Race(runs: seq<Running>, schedule: seq<nat>): seq<Event>
    decreases |schedule|
  {
    if schedule == [] then Flatten(AllEmitted(runs))
    else if CanRun(runs, schedule[0]) then
      Shows(runs[schedule[0]]) + Race(RunStep(runs, schedule[0]), schedule[1..])
    else Race(runs, schedule[1..])
  }

  function SequentialBatch(tools: seq<Tool>, calls: seq<ToolCall>, envs: seq<CallEnv>): Batch
    requires |calls| == |envs|
  {
    var n := Reached(envs);
    var fs := Outcomes(tools, calls, envs, n);
    Batch(SequentialEvents(tools, calls, envs, n), Replies(fs), Terminates(fs), Executed(tools, calls, envs, n))
  }

  function ParallelBatch(tools: seq<Tool>, calls: seq<ToolCall>, envs: seq<CallEnv>, schedule: seq<nat>): Batch
    requires |calls| == |envs|
  {
    var n := Reached(envs);
    var fs := Outcomes(tools, calls, envs, n);
    var race := Race(Launches(tools, calls, envs, n), schedule);
    Batch(PreparationEvents(tools, calls, envs, n) + race + Pairs(Replies(fs)),
          Replies(fs), Terminates(fs), Executed(tools, calls, envs, n))
  }

  function TruncatedOutcome(call: ToolCall): Finalized {
    Finalized(call, ErrorResult(TruncatedResponse(call.name)), true)
  }

  function TruncatedEvents(calls: seq<ToolCall>): seq<Event> {
    if calls == [] then []
    else
      var call := calls[|calls| - 1];
      TruncatedEvents(calls[..|calls| - 1]) +
        ([ToolStart(call), End(TruncatedOutcome(call))] + Pair(Reply(TruncatedOutcome(call))))
  }

  function TruncatedBatch(calls: seq<ToolCall>): Batch {
    var replies := seq(|calls|, i requires 0 <= i < |calls| => Reply(TruncatedOutcome(calls[i])));
    Batch(TruncatedEvents(calls), replies, false, [])
  }

  predicate WantsSequential(tool: Option<Tool>) {
    tool.Some? && tool.value.mode == Some(Sequential)
  }

  predicate RunsSequentially(tools: seq<Tool>, mode: Mode, calls: seq<ToolCall>) {
    mode.Sequential? || exists call :: call in calls && WantsSequential(FindTool(tools, call.name))
  }

  function ExecuteBatch(
    tools: seq<Tool>, mode: Mode, calls: seq<ToolCall>, envs: seq<CallEnv>, schedule: seq<nat>): Batch
    requires |calls| == |envs|
  {
    if RunsSequentially(tools, mode, calls) then SequentialBatch(tools, calls, envs)
    else ParallelBatch(tools, calls, envs, schedule)
  }
}
