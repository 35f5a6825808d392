/** The agent loop as a transition system: one step per turn, the environment's answers given by a script. */
module LoopModel {
  import opened Options
  import opened AgentTypes
  import opened MessageQueue
  import opened ToolBatch

  /** One event of a provider stream; Delta stands for the nine kinds of content event. */
  datatype StreamEvent = Begin(partial: Assistant) | Delta(partial: Assistant) | Terminal

  datatype Context = Context(messages: seq<Message>, tools: seq<Tool>)

  /** What the outside world does to a queue before it is polled, and how the queue is set when it is. */
  datatype Poll = Poll(arrivals: seq<Message>, mode: QueueMode)

  /** Everything the environment answers during one turn and the polls after it. */
  datatype TurnEnv = TurnEnv(
    stream: seq<StreamEvent>, final: Assistant,
    calls: nat -> CallEnv, schedule: seq<nat>,
    replacement: Option<Context>, stop: bool,
    steering: Poll, followUp: Poll)

  datatype Origin = Steering | FollowUp

  datatype Turn = Turn(
    origin: Origin, injected: seq<Message>, message: Assistant, results: seq<Message>,
    more: bool, executed: seq<ToolCall>)

  datatype Loop = Loop(
    context: Context, newMessages: seq<Message>, trace: seq<Event>, executed: seq<ToolCall>,
    steering: seq<Message>, followUp: seq<Message>,
    pending: seq<Message>, origin: Origin, more: bool,
    turns: seq<Turn>, finished: bool)

  // ---------- One response ----------

  function Relayed(stream: seq<StreamEvent>, open: bool): seq<Event> {
    if stream == [] || stream[0].Terminal? then []
    else if stream[0].Begin? then [MessageStart(FromAssistant(stream[0].partial))] + Relayed(stream[1..], true)
    else if open then [MessageUpdate(FromAssistant(stream[0].partial))] + Relayed(stream[1..], true)
    else Relayed(stream[1..], false)
  }

  /** How often a stream begins before its terminal event. */
  function Begins(stream: seq<StreamEvent>): nat {
    if stream == [] || stream[0].Terminal? then 0 else (if stream[0].Begin? then 1 else 0) + Begins(stream[1..])
  }

  function ResponseEvents(stream: seq<StreamEvent>, final: Assistant): seq<Event> {
    Relayed(stream, false)
    + (if Begins(stream) == 0 then [MessageStart(FromAssistant(final))] else [])
    + [MessageEnd(FromAssistant(final))]
  }

  /** The context after a response: partial messages are pushed once and then replaced in place. */
  function Streamed(context: seq<Message>, stream: seq<StreamEvent>, final: Assistant, open: bool): seq<Message>
    requires open ==> context != []
    decreases |stream|
  {
    if stream == [] || stream[0].Terminal? then
      (if open then context[..|context| - 1] else context) + [FromAssistant(final)]
    else if stream[0].Begin? then
      Streamed(context + [FromAssistant(stream[0].partial)], stream[1..], final, true)
    else if open then
      Streamed(context[..|context| - 1] + [FromAssistant(stream[0].partial)], stream[1..], final, true)
    else
      Streamed(context, stream[1..], final, false)
  }

  // ---------- One turn ----------

  function Answers(calls: nat -> CallEnv, n: nat): seq<CallEnv> {
    seq(n, i requires 0 <= i < n => calls(i))
  }

  function TurnBatch(tools: seq<Tool>, mode: Mode, env: TurnEnv): Batch {
    var calls := ToolCalls(env.final.blocks);
    if env.final.Failed() || calls == [] then Batch([], [], true, [])
    else if env.final.stopReason.Length? then TruncatedBatch(calls)
    else ExecuteBatch(tools, mode, calls, Answers(env.calls, |calls|), env.schedule)
  }

  /** A turn up to the end of its response; the first turn was already announced when the run began. */
  function TurnOpening(first: bool, pending: seq<Message>, env: TurnEnv): seq<Event> {
    (if first then [] else [TurnStart]) + Pairs(pending) + ResponseEvents(env.stream, env.final)
  }

  function TurnEvents(first: bool, pending: seq<Message>, env: TurnEnv, batch: Batch): seq<Event> {
    TurnOpening(first, pending, env) + batch.events + [TurnEnd(FromAssistant(env.final), batch.results)]
  }

  /** From the start of a turn to its turn_end. */
  function RunTurn(s: Loop, env: TurnEnv, mode: Mode): Loop {
    var batch := TurnBatch(s.context.tools, mode, env);
    var streamed := Streamed(s.context.messages + s.pending, env.stream, env.final, false);
    s.(context := s.context.(messages := streamed + batch.results),
       newMessages := s.newMessages + s.pending + [FromAssistant(env.final)] + batch.results,
       trace := s.trace + TurnEvents(s.turns == [], s.pending, env, batch),
       executed := s.executed + batch.executed,
       pending := [], more := !batch.terminate,
       turns := s.turns + [Turn(s.origin, s.pending, env.final, batch.results, !batch.terminate, batch.executed)])
  }

  function Finish(s: Loop): Loop {
    s.(trace := s.trace + [AgentEnd(s.newMessages)], finished := true)
  }

  /** While a turn runs, the outside world may queue messages. */
  function Arrive(s: Loop, env: TurnEnv): Loop {
    s.(steering := s.steering + env.steering.arrivals, followUp := s.followUp + env.followUp.arrivals)
  }

  function PollSteering(s: Loop, mode: QueueMode): Loop {
    s.(pending := Taken(mode, s.steering), steering := Left(mode, s.steering), origin := Steering)
  }

  /** What follows turn_end: a failed response ends the run, else hooks and the steering poll decide. */
  function AfterTurn(s: Loop, env: TurnEnv): Loop {
    if env.final.Failed() then Finish(s)
    else
      var s' := s.(context := env.replacement.GetOr(s.context));
      if env.stop then Finish(s') else PollSteering(s', env.steering.mode)
  }

  /** Outside the inner loop: only an agent that would stop looks at the follow-up queue. */
  function OuterPoll(s: Loop, env: TurnEnv): Loop {
    if s.finished || s.more || s.pending != [] then s
    else
      var followUpMode := env.followUp.mode;
      var s' := s.(
        pending := Taken(followUpMode, s.followUp), followUp := Left(followUpMode, s.followUp), origin := FollowUp);
      if s'.pending == [] then Finish(s') else s'
  }

  /** One pass through the body of the inner loop. */
  function InnerPass(s: Loop, env: TurnEnv, mode: Mode): Loop {
    AfterTurn(Arrive(RunTurn(s, env, mode), env), env)
  }

  function Step(s: Loop, env: TurnEnv, mode: Mode): Loop {
    OuterPoll(InnerPass(s, env, mode), env)
  }

  /** The loop after as many scripted turns as it takes; a finished loop takes no more. */
  function Run(s: Loop, script: seq<TurnEnv>, mode: Mode): Loop {
    if script == [] then s
    else
      var before := Run(s, script[..|script| - 1], mode);
      if before.finished then before else Step(before, script[|script| - 1], mode)
  }

  /** A run begins with its prompts announced and, unless skipped, a first steering poll. */
  function Opened(context: Context, prompts: seq<Message>, steering: seq<Message>, followUp: seq<Message>): Loop {
    Loop(context.(messages := context.messages + prompts), prompts, [AgentStart, TurnStart] + Pairs(prompts), [],
         steering, followUp, [], Steering, true, [], false)
  }

  function FirstPoll(s: Loop, poll: Poll, skip: bool): Loop {
    var s' := s.(steering := s.steering + poll.arrivals);
    if skip then s' else PollSteering(s', poll.mode)
  }

  function Begun(
    context: Context, prompts: seq<Message>, steering: seq<Message>, followUp: seq<Message>, poll: Poll, skip: bool)
    : Loop
  {
    FirstPoll(Opened(context, prompts, steering, followUp), poll, skip)
  }

  // ---------- Parts of a run ----------

  lemma RunSnoc(s0: Loop, script: seq<TurnEnv>, k: nat, mode: Mode)
    requires 0 < k <= |script|
    ensures var before := Run(s0, script[..k - 1], mode);
            Run(s0, script[..k], mode) == if before.finished then before else Step(before, script[k - 1], mode)
  {
    assert script[..k][..k - 1] == script[..k - 1];
  }

  lemma {:induction false} RunIgnoresRest(s0: Loop, script: seq<TurnEnv>, k: nat, mode: Mode)
    requires k <= |script| && Run(s0, script[..k], mode).finished
    ensures Run(s0, script, mode) == Run(s0, script[..k], mode)
    decreases |script| - k
  {
    if k == |script| {
      assert script[..k] == script;
    } else {
      RunSnoc(s0, script, k + 1, mode);
      RunIgnoresRest(s0, script, k + 1, mode);
    }
  }
}
