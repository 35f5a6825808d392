/** The agent loop step by step: nested loops over mutable conversations, queues and an event log. */
module AgentLoop {
  import opened AgentTypes
  import opened Sequences
  import opened MessageQueue
  import opened ToolBatch
  import opened ToolExecution
  import opened LoopModel

  /** A message array shared by reference, as `context.messages` and `newMessages` are. */
  class MessageList {
    var items: seq<Message>

    constructor (items: seq<Message>)
      ensures this.items == items
    {
      this.items := items;
    }

    method Push(message: Message)
      modifies this
      ensures items == old(items) + [message]
    {
      items := items + [message];
    }

    method SetLast(message: Message)
      requires items != []
      modifies this
      ensures items == old(items)[..|old(items)| - 1] + [message]
    {
      items := items[|items| - 1 := message];
    }
  }

  method InjectPending(pending: seq<Message>, context: MessageList, newMessages: MessageList, log: EventLog)
    requires context != newMessages
    modifies context, newMessages, log
    ensures context.items == old(context.items) + pending
    ensures newMessages.items == old(newMessages.items) + pending
    ensures log.trace == old(log.trace) + Pairs(pending)
  {
    for i := 0 to |pending|
      invariant context.items == old(context.items) + pending[..i]
      invariant newMessages.items == old(newMessages.items) + pending[..i]
      invariant log.trace == old(log.trace) + Pairs(pending[..i])
    {
      EmitMessage(pending[i], log);
      context.Push(pending[i]);
      newMessages.Push(pending[i]);
      assert pending[..i + 1][..i] == pending[..i];
      Assoc(old(log.trace), Pairs(pending[..i]), Pair(pending[i]));
    }
    assert pending[..|pending|] == pending;
  }

  /** What has been relayed and what is still to come make up the whole response. */
  ghost predicate Relaying(
    stream: seq<StreamEvent>, final: Assistant, before: seq<Message>,
    i: nat, open: bool, items: seq<Message>, relayed: seq<Event>)
    requires i <= |stream|
  {
    && (open ==> items != [])
    && relayed + Relayed(stream[i..], open) == Relayed(stream, false)
    && Streamed(items, stream[i..], final, open) == Streamed(before, stream, final, false)
    && ((if open then 1 else 0) + Begins(stream[i..]) > 0 <==> Begins(stream) > 0)
  }

  lemma RelaysStart(
    stream: seq<StreamEvent>, final: Assistant, before: seq<Message>,
    i: nat, open: bool, items: seq<Message>, relayed: seq<Event>)
    requires i < |stream| && stream[i].Begin? && Relaying(stream, final, before, i, open, items, relayed)
    ensures var m := FromAssistant(stream[i].partial);
            Relaying(stream, final, before, i + 1, true, items + [m], relayed + [MessageStart(m)])
  {
    assert stream[i..][1..] == stream[i + 1..];
    Assoc(relayed, [MessageStart(FromAssistant(stream[i].partial))], Relayed(stream[i + 1..], true));
  }

  lemma RelaysDelta(
    stream: seq<StreamEvent>, final: Assistant, before: seq<Message>,
    i: nat, open: bool, items: seq<Message>, relayed: seq<Event>)
    requires i < |stream| && stream[i].Delta? && Relaying(stream, final, before, i, open, items, relayed)
    ensures var m := FromAssistant(stream[i].partial);
            if open
            then Relaying(stream, final, before, i + 1, true, items[..|items| - 1] + [m], relayed + [MessageUpdate(m)])
            else Relaying(stream, final, before, i + 1, false, items, relayed)
  {
    assert stream[i..][1..] == stream[i + 1..];
    Assoc(relayed, [MessageUpdate(FromAssistant(stream[i].partial))], Relayed(stream[i + 1..], true));
  }

  lemma RelayingEnds(
    stream: seq<StreamEvent>, final: Assistant, before: seq<Message>,
    i: nat, open: bool, items: seq<Message>, relayed: seq<Event>)
    requires i <= |stream| && (i < |stream| ==> stream[i].Terminal?)
    requires Relaying(stream, final, before, i, open, items, relayed)
    ensures open ==> items != []
    ensures Streamed(before, stream, final, false) ==
            (if open then items[..|items| - 1] else items) + [FromAssistant(final)]
    ensures ResponseEvents(stream, final) ==
            relayed + if open then [MessageEnd(FromAssistant(final))] else Pair(FromAssistant(final))
  {
    assert relayed + [] == relayed;
  }


  method StreamAssistantResponse(context: MessageList, stream: seq<StreamEvent>, final: Assistant, log: EventLog)
    modifies context, log
    ensures context.items == Streamed(old(context.items), stream, final, false)
    ensures log.trace == old(log.trace) + ResponseEvents(stream, final)
  {
    var addedPartial := false;
    var i := 0;
    ghost var relayed: seq<Event> := [];
    while i < |stream| && !stream[i].Terminal?
      invariant i <= |stream|
      invariant log.trace == old(log.trace) + relayed
      invariant Relaying(stream, final, old(context.items), i, addedPartial, context.items, relayed)
    {
      if stream[i].Begin? {
        RelaysStart(stream, final, old(context.items), i, addedPartial, context.items, relayed);
      } else {
        RelaysDelta(stream, final, old(context.items), i, addedPartial, context.items, relayed);
      }
      if stream[i].Begin? || addedPartial {
        var message := FromAssistant(stream[i].partial);
        var event := if stream[i].Begin? then MessageStart(message) else MessageUpdate(message);
        if stream[i].Begin? {
          context.Push(message);
          addedPartial := true;
        } else {
          context.SetLast(message);
        }
        log.Emit(event);
        relayed := relayed + [event];
      }
      i := i + 1;
    }
    RelayingEnds(stream, final, old(context.items), i, addedPartial, context.items, relayed);
    if addedPartial {
      context.SetLast(FromAssistant(final));
    } else {
      context.Push(FromAssistant(final));
      log.Emit(MessageStart(FromAssistant(final)));
    }
    log.Emit(MessageEnd(FromAssistant(final)));
  }

  method PushAll(messages: seq<Message>, list: MessageList)
    modifies list
    ensures list.items == old(list.items) + messages
  {
    for i := 0 to |messages|
      invariant list.items == old(list.items) + messages[..i]
    {
      list.Push(messages[i]);
    }
    assert messages[..|messages|] == messages;
  }

  /** The outside world queues messages while a turn runs, and may change how the queue is drained. */
  method Queue(arrivals: seq<Message>, mode: QueueMode, queue: PendingMessageQueue)
    modifies queue
    ensures queue.messages == old(queue.messages) + arrivals && queue.mode == mode
  {
    for i := 0 to |arrivals|
      invariant queue.messages == old(queue.messages) + arrivals[..i]
    {
      queue.Enqueue(arrivals[i]);
    }
    assert arrivals[..|arrivals|] == arrivals;
    queue.mode := mode;
  }

  method ExecuteTurnTools(tools: seq<Tool>, mode: Mode, env: TurnEnv, log: EventLog, host: ToolHost)
    returns (toolResults: seq<Message>, more: bool)
    requires !env.final.Failed()
    modifies log, host
    ensures var batch := TurnBatch(tools, mode, env);
            toolResults == batch.results && more == !batch.terminate &&
            log.trace == old(log.trace) + batch.events && host.executed == old(host.executed) + batch.executed
  {
    var toolCalls := ToolCalls(env.final.blocks);
    toolResults, more := [], false;
    if |toolCalls| > 0 {
      var terminate;
      if env.final.stopReason == Length {
        toolResults, terminate := FailToolCallsFromTruncatedMessage(toolCalls, log);
      } else {
        toolResults, terminate :=
          ExecuteToolCalls(tools, mode, toolCalls, Answers(env.calls, |toolCalls|), env.schedule, log, host);
      }
      more := !terminate;
    }
  }

  /** The mutable part of a running loop, read off its objects or off the transition system's state. */
  datatype Snapshot = Snapshot(
    context: Context, newMessages: seq<Message>, trace: seq<Event>, executed: seq<ToolCall>,
    steering: seq<Message>, followUp: seq<Message>)

  function SnapshotOf(s: Loop): Snapshot {
    Snapshot(s.context, s.newMessages, s.trace, s.executed, s.steering, s.followUp)
  }

  /** The running loop's objects hold exactly the state `s` of the transition system. */
  ghost predicate Holds(
    s: Loop, context: MessageList, tools: seq<Tool>, newMessages: MessageList, log: EventLog, host: ToolHost,
    steering: PendingMessageQueue, followUp: PendingMessageQueue)
    reads context, newMessages, log, host, steering, followUp
  {
    SnapshotOf(s) == Snapshot(Context(context.items, tools), newMessages.items, log.trace, host.executed,
                              steering.messages, followUp.messages)
  }

  method OpenTurn(
    env: TurnEnv, firstTurn: bool, pending: seq<Message>, context: MessageList, newMessages: MessageList, log: EventLog)
    requires context != newMessages
    modifies context, newMessages, log
    ensures context.items == Streamed(old(context.items) + pending, env.stream, env.final, false)
    ensures newMessages.items == old(newMessages.items) + pending + [FromAssistant(env.final)]
    ensures log.trace == old(log.trace) + TurnOpening(firstTurn, pending, env)
  {
    ghost var opening := if firstTurn then [] else [TurnStart];
    if !firstTurn {
      log.Emit(TurnStart);
    }
    InjectPending(pending, context, newMessages, log);
    StreamAssistantResponse(context, env.stream, env.final, log);
    newMessages.Push(FromAssistant(env.final));
    Append4(old(log.trace), opening, Pairs(pending), ResponseEvents(env.stream, env.final));
  }

  /** The body of the inner loop up to and including turn_end. */
  method RunTurnBody(
    ghost s: Loop, env: TurnEnv, mode: Mode, firstTurn: bool, pending: seq<Message>,
    context: MessageList, tools: seq<Tool>, newMessages: MessageList, log: EventLog, host: ToolHost,
    steering: PendingMessageQueue, followUp: PendingMessageQueue)
    returns (more: bool)
    requires Holds(s, context, tools, newMessages, log, host, steering, followUp)
    requires s.pending == pending && firstTurn == (s.turns == []) && context != newMessages
    modifies context, newMessages, log, host
    ensures Holds(RunTurn(s, env, mode), context, tools, newMessages, log, host, steering, followUp)
    ensures more == RunTurn(s, env, mode).more
  {
    ghost var batch := TurnBatch(tools, mode, env);
    OpenTurn(env, firstTurn, pending, context, newMessages, log);
    var toolResults: seq<Message> := [];
    more := false;
    if env.final.stopReason != Error && env.final.stopReason != Aborted {
      toolResults, more := ExecuteTurnTools(tools, mode, env, log, host);
      PushAll(toolResults, context);
      PushAll(toolResults, newMessages);
    }
    var end := TurnEnd(FromAssistant(env.final), toolResults);
    log.Emit(end);
    Append4(s.trace, TurnOpening(firstTurn, pending, env), batch.events, [end]);
  }

  /** The rest of the inner loop's body: the outside world acts, hooks decide, steering is polled. */
  method DecideAfterTurn(
    ghost t: Loop, env: TurnEnv, context: MessageList, tools: seq<Tool>, newMessages: MessageList, log: EventLog,
    host: ToolHost, steering: PendingMessageQueue, followUp: PendingMessageQueue)
    returns (finished: bool, currentContext: MessageList, currentTools: seq<Tool>, pending: seq<Message>)
    requires Holds(t, context, tools, newMessages, log, host, steering, followUp) && t.pending == [] && !t.finished
    requires steering != followUp
    modifies log, steering, followUp
    ensures var s := AfterTurn(Arrive(t, env), env);
            Holds(s, currentContext, currentTools, newMessages, log, host, steering, followUp) &&
            finished == s.finished && pending == s.pending
    ensures followUp.mode == env.followUp.mode
    ensures currentContext == context || fresh(currentContext)
    ensures env.replacement.None? ==> currentContext == context
  {
    Queue(env.steering.arrivals, env.steering.mode, steering);
    Queue(env.followUp.arrivals, env.followUp.mode, followUp);
    finished, currentContext, currentTools, pending := false, context, tools, [];
    if env.final.stopReason == Error || env.final.stopReason == Aborted {
      log.Emit(AgentEnd(newMessages.items));
      return true, context, tools, [];
    }
    if env.replacement.Some? {
      currentContext := new MessageList(env.replacement.value.messages);
      currentTools := env.replacement.value.tools;
    }
    if env.stop {
      log.Emit(AgentEnd(newMessages.items));
      return true, currentContext, currentTools, [];
    }
    pending := steering.Drain();
  }

  // The two predicates below say where a run stands. They are closed to the solver: it looks inside only
  // where `Look` is mentioned, which keeps a whole turn's definition out of the proofs of the loops.

  ghost predicate Look(k: nat) {
    true
  }

  /** After k turns and the polls that follow them the run is in state `s`. */
  ghost predicate RunReaches(s0: Loop, script: seq<TurnEnv>, mode: Mode, k: nat, s: Loop) {
    forall n: nat {:trigger Look(n)} :: Look(n) && n == k ==> n <= |script| && s == Run(s0, script[..n], mode)
  }

  /** After k turns, before a possible poll for follow-ups, the run is in state `s`. */
  ghost predicate PassReaches(s0: Loop, script: seq<TurnEnv>, mode: Mode, k: nat, s: Loop) {
    forall n: nat {:trigger Look(n)} :: Look(n) && n == k ==>
      0 < n <= |script| && var before := Run(s0, script[..n - 1], mode);
      !before.finished && s == InnerPass(before, script[n - 1], mode)
  }

  lemma PassGivesRun(s0: Loop, script: seq<TurnEnv>, mode: Mode, k: nat, s: Loop)
    requires 0 < k <= |script| && PassReaches(s0, script, mode, k, s)
    ensures RunReaches(s0, script, mode, k, OuterPoll(s, script[k - 1]))
    ensures s.finished || s.more || s.pending != [] ==> RunReaches(s0, script, mode, k, s)
  {
    assert Look(k);
    RunSnoc(s0, script, k, mode);
  }

  lemma RunStarts(s0: Loop, script: seq<TurnEnv>, mode: Mode)
    ensures RunReaches(s0, script, mode, 0, s0)
  {
    assert script[..0] == [];
  }

  lemma RunEnds(s0: Loop, script: seq<TurnEnv>, mode: Mode, k: nat, s: Loop)
    requires k <= |script| && RunReaches(s0, script, mode, k, s) && (s.finished || k == |script|)
    ensures s == Run(s0, script, mode)
  {
    assert Look(k);
    assert script[..|script|] == script;
    if s.finished {
      RunIgnoresRest(s0, script, k, mode);
    }
  }

  /** The whole body of the inner loop, taken for turn k of the script. */
  method TakeTurn(
    ghost s0: Loop, ghost s: Loop, script: seq<TurnEnv>, k: nat, mode: Mode, firstTurn: bool, pending: seq<Message>,
    context: MessageList, tools: seq<Tool>, newMessages: MessageList, log: EventLog, host: ToolHost,
    steering: PendingMessageQueue, followUp: PendingMessageQueue)
    returns (
      finished: bool, more: bool, currentContext: MessageList, currentTools: seq<Tool>, nextPending: seq<Message>,
      ghost s': Loop)
    requires k < |script| && RunReaches(s0, script, mode, k, s) && !s.finished
    requires Holds(s, context, tools, newMessages, log, host, steering, followUp)
    requires s.pending == pending && firstTurn == (s.turns == [])
    requires context != newMessages && steering != followUp
    modifies context, newMessages, log, host, steering, followUp
    ensures PassReaches(s0, script, mode, k + 1, s')
    ensures Holds(s', currentContext, currentTools, newMessages, log, host, steering, followUp)
    ensures finished == s'.finished && more == s'.more && nextPending == s'.pending && s'.turns != []
    ensures followUp.mode == script[k].followUp.mode && |s'.turns| == |s.turns| + 1
    ensures currentContext == context || fresh(currentContext)
    ensures script[k].replacement.None? ==> currentContext == context
  {
    var env := script[k];
    ghost var t := RunTurn(s, env, mode);
    more := RunTurnBody(s, env, mode, firstTurn, pending, context, tools, newMessages, log, host, steering, followUp);
    finished, currentContext, currentTools, nextPending :=
      DecideAfterTurn(t, env, context, tools, newMessages, log, host, steering, followUp);
    s' := AfterTurn(Arrive(t, env), env);
    assert Look(k);
  }

  /** No hook replaces the context after turns a to b - 1. */
  ghost predicate Unreplaced(script: seq<TurnEnv>, a: nat, b: nat) {
    forall i :: a <= i < b && i < |script| ==> script[i].replacement.None?
  }

  /**
   * The inner loop of `runLoop`: takes turns while tools or queued messages ask for more. `script` answers
   * for the environment; if it is used up (`spent`) the run is still going.
   */
  method TakeTurns(
    ghost s0: Loop, ghost start: Loop, script: seq<TurnEnv>, k0: nat, mode: Mode,
    isFirst: bool, firstPending: seq<Message>,
    initialContext: MessageList, initialTools: seq<Tool>, newMessages: MessageList, log: EventLog, host: ToolHost,
    steering: PendingMessageQueue, followUp: PendingMessageQueue)
    returns (k: nat, finished: bool, spent: bool, currentContext: MessageList, currentTools: seq<Tool>, ghost s: Loop)
    requires k0 <= |script| && RunReaches(s0, script, mode, k0, start) && !start.finished
    requires Holds(start, initialContext, initialTools, newMessages, log, host, steering, followUp)
    requires start.pending == firstPending && isFirst == (start.turns == [])
    requires initialContext != newMessages && steering != followUp
    modifies initialContext, newMessages, log, host, steering, followUp
    ensures k0 <= k <= |script| && finished == s.finished
    ensures Holds(s, currentContext, currentTools, newMessages, log, host, steering, followUp)
    ensures currentContext == initialContext || fresh(currentContext)
    ensures Unreplaced(script, k0, k) ==> currentContext == initialContext
    ensures |s.turns| - |start.turns| == k - k0
    ensures if spent then k == |script| && RunReaches(s0, script, mode, k, s) && !finished
            else k > k0 && PassReaches(s0, script, mode, k, s) && s.turns != [] &&
                 (!finished ==> !s.more && s.pending == [] && followUp.mode == script[k - 1].followUp.mode)
  {
    var hasMoreToolCalls, firstTurn, pending := true, isFirst, firstPending;
    currentContext, currentTools := initialContext, initialTools;
    k, finished, spent, s := k0, false, false, start;
    while hasMoreToolCalls || |pending| > 0
      invariant k0 <= k <= |script| && !s.finished && !finished && !spent
      invariant if k == k0 then hasMoreToolCalls && s == start
                else hasMoreToolCalls == s.more && PassReaches(s0, script, mode, k, s) && s.turns != [] &&
                     followUp.mode == script[k - 1].followUp.mode
      invariant Holds(s, currentContext, currentTools, newMessages, log, host, steering, followUp)
      invariant s.pending == pending && firstTurn == (s.turns == [])
      invariant currentContext == initialContext || fresh(currentContext)
      invariant Unreplaced(script, k0, k) ==> currentContext == initialContext
      invariant |s.turns| - |start.turns| == k - k0
      decreases |script| - k
    {
      if k > k0 {
        PassGivesRun(s0, script, mode, k, s);
      }
      if k == |script| {
        spent := true;
        break;
      }
      finished, hasMoreToolCalls, currentContext, currentTools, pending, s :=
        TakeTurn(
          s0, s, script, k, mode, firstTurn, pending,
          currentContext, currentTools, newMessages, log, host, steering, followUp);
      firstTurn := false;
      k := k + 1;
      if finished {
        break;
      }
    }
  }

  /** `runLoop`: around the inner loop, an agent that would stop looks for follow-up messages. */
  method RunLoop(
    ghost s0: Loop, initialContext: MessageList, initialTools: seq<Tool>, newMessages: MessageList,
    script: seq<TurnEnv>, mode: Mode, firstPending: seq<Message>, log: EventLog, host: ToolHost,
    steering: PendingMessageQueue, followUp: PendingMessageQueue)
    returns (finished: bool, context: MessageList, tools: seq<Tool>)
    requires Holds(s0, initialContext, initialTools, newMessages, log, host, steering, followUp)
    requires s0.pending == firstPending && s0.turns == [] && !s0.finished
    requires initialContext != newMessages && steering != followUp
    modifies initialContext, newMessages, log, host, steering, followUp
    ensures Holds(Run(s0, script, mode), context, tools, newMessages, log, host, steering, followUp)
    ensures finished == Run(s0, script, mode).finished
    ensures Unreplaced(script, 0, |Run(s0, script, mode).turns|) ==> context == initialContext
  {
    context, tools, finished := initialContext, initialTools, false;
    var firstTurn, pending, k, spent := true, firstPending, 0, false;
    ghost var s := s0;
    RunStarts(s0, script, mode);
    while true
      invariant k <= |script| && RunReaches(s0, script, mode, k, s) && !s.finished
      invariant Holds(s, context, tools, newMessages, log, host, steering, followUp)
      invariant s.pending == pending && firstTurn == (s.turns == [])
      invariant context == initialContext || fresh(context)
      invariant |s.turns| == k && (Unreplaced(script, 0, k) ==> context == initialContext)
      decreases |script| - k
    {
      k, finished, spent, context, tools, s :=
        TakeTurns(
          s0, s, script, k, mode, firstTurn, pending, context, tools, newMessages, log, host, steering, followUp);
      if spent {
        break;
      }
      PassGivesRun(s0, script, mode, k, s);
      if finished {
        break;
      }
      firstTurn := false;
      pending := followUp.Drain();
      s := OuterPoll(s, script[k - 1]);
      if |pending| == 0 {
        break;
      }
    }
    if !spent && !finished {
      log.Emit(AgentEnd(newMessages.items));
      finished := true;
    }
    RunEnds(s0, script, mode, k, s);
  }

  /** Whether a run may start without new messages: the context must not be empty or end with an assistant. */
  predicate CanContinue(messages: seq<Message>) {
    messages != [] && !messages[|messages| - 1].FromAssistant?
  }

  method AnnounceRun(prompts: seq<Message>, log: EventLog)
    requires log.trace == []
    modifies log
    ensures log.trace == [AgentStart, TurnStart] + Pairs(prompts)
  {
    log.Emit(AgentStart);
    log.Emit(TurnStart);
    for i := 0 to |prompts|
      invariant log.trace == [AgentStart, TurnStart] + Pairs(prompts[..i])
    {
      EmitMessage(prompts[i], log);
      assert prompts[..i + 1][..i] == prompts[..i];
      Assoc([AgentStart, TurnStart], Pairs(prompts[..i]), Pair(prompts[i]));
    }
    assert prompts[..|prompts|] == prompts;
  }

  /**
   * `runAgentLoop`: announces the run and its prompts on a copy
   * of the context, then loops. The first steering poll belongs to `runLoop` and is skipped on request.
   */
  method RunAgentLoop(
    prompts: seq<Message>, context: Context, script: seq<TurnEnv>, mode: Mode,
    poll: Poll, skipInitialSteeringPoll: bool,
    log: EventLog, host: ToolHost, steering: PendingMessageQueue, followUp: PendingMessageQueue)
    returns (finished: bool, newMessages: seq<Message>, finalContext: Context)
    requires log.trace == [] && host.executed == [] && steering != followUp
    modifies log, host, steering, followUp
    ensures var s := Begun(
              context, prompts, old(steering.messages), old(followUp.messages), poll, skipInitialSteeringPoll);
            var r := Run(s, script, mode);
            finished == r.finished && newMessages == r.newMessages && finalContext == r.context &&
            log.trace == r.trace && host.executed == r.executed &&
            steering.messages == r.steering && followUp.messages == r.followUp
  {
    var currentContext := new MessageList(context.messages + prompts);
    var list := new MessageList(prompts);
    AnnounceRun(prompts, log);
    Queue(poll.arrivals, poll.mode, steering);
    var pending: seq<Message> := [];
    if !skipInitialSteeringPoll {
      pending := steering.Drain();
    }
    ghost var s :=
      Begun(context, prompts, old(steering.messages), old(followUp.messages), poll, skipInitialSteeringPoll);
    var last, tools;
    finished, last, tools :=
      RunLoop(s, currentContext, context.tools, list, script, mode, pending, log, host, steering, followUp);
    newMessages, finalContext := list.items, Context(last.items, tools);
  }

  /**
   * `runAgentLoopContinue`: refuses a context that is empty or ends with an assistant message. Otherwise it loops
   * on the caller's own array, which therefore grows with the run until a hook replaces the context.
   */
  method RunAgentLoopContinue(
    context: MessageList, tools: seq<Tool>, script: seq<TurnEnv>, mode: Mode, poll: Poll,
    log: EventLog, host: ToolHost, steering: PendingMessageQueue, followUp: PendingMessageQueue)
    returns (refused: bool, finished: bool, newMessages: seq<Message>, finalContext: Context)
    requires log.trace == [] && host.executed == [] && steering != followUp
    modifies context, log, host, steering, followUp
    ensures refused <==>
            old(context.items) == [] || old(context.items)[|old(context.items)| - 1].FromAssistant?
    ensures refused ==> context.items == old(context.items) && log.trace == [] && host.executed == []
    ensures refused ==> steering.messages == old(steering.messages) && followUp.messages == old(followUp.messages)
    ensures !refused ==>
            var s := Begun(
              Context(old(context.items), tools), [], old(steering.messages), old(followUp.messages), poll, false);
            var r := Run(s, script, mode);
            finished == r.finished && newMessages == r.newMessages && finalContext == r.context &&
            log.trace == r.trace && host.executed == r.executed &&
            steering.messages == r.steering && followUp.messages == r.followUp &&
            (Unreplaced(script, 0, |r.turns|) ==> context.items == finalContext.messages)
  {
    newMessages, finalContext, finished := [], Context(context.items, tools), false;
    if |context.items| == 0 || context.items[|context.items| - 1].FromAssistant? {
      return true, false, [], finalContext;
    }
    refused := false;
    var list := new MessageList([]);
    AnnounceRun([], log);
    ghost var s := Begun(Context(context.items, tools), [], steering.messages, followUp.messages, poll, false);
    assert context.items + [] == context.items;
    Queue(poll.arrivals, poll.mode, steering);
    var pending := steering.Drain();
    var last, lastTools;
    finished, last, lastTools := RunLoop(s, context, tools, list, script, mode, pending, log, host, steering, followUp);
    newMessages, finalContext := list.items, Context(last.items, lastTools);
  }
}
