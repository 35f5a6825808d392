/** The stateful agent: its transcript, its two queues and its runs. */
module Agent {
  import opened Options
  import opened AgentTypes
  import opened AgentState
  import opened MessageQueue
  import opened ToolBatch
  import opened ToolExecution
  import opened LoopModel
  import opened AgentLoop
  import opened SessionModel

  datatype Refusal = Busy | NothingToContinue | EndsWithAssistant

  class Agent {
    const state: State
    const steeringQueue: PendingMessageQueue
    const followUpQueue: PendingMessageQueue
    const tools: seq<Tool>
    const toolExecution: Mode
    var activeRun: bool
    ghost var session: Session

    ghost predicate Valid()
      reads this, state, steeringQueue, followUpQueue
    {
      && steeringQueue != followUpQueue
      && session.view == state.Value()
      && session.steering.waiting == steeringQueue.messages && session.followUp.waiting == followUpQueue.messages
      && session.busy == activeRun == state.isStreaming
    }

    constructor (initial: seq<Message>, tools: seq<Tool>, toolExecution: Mode)
      ensures Valid() && fresh(state) && fresh(steeringQueue) && fresh(followUpQueue)
      ensures session == Session(View(initial, None, {}, None), Lane([], [], []), Lane([], [], []), [], false)
      ensures this.tools == tools && this.toolExecution == toolExecution
    {
      state := new State(initial);
      steeringQueue := new PendingMessageQueue(OneAtATime);
      followUpQueue := new PendingMessageQueue(OneAtATime);
      this.tools, this.toolExecution := tools, toolExecution;
      activeRun := false;
      session := Session(View(initial, None, {}, None), Lane([], [], []), Lane([], [], []), [], false);
    }

    method Steer(message: Message)
      requires Valid()
      modifies this`session, steeringQueue
      ensures Valid() && session == Act(old(session), Action.Steer(message), tools, toolExecution)
      ensures steeringQueue.messages == old(steeringQueue.messages) + [message]
    {
      steeringQueue.Enqueue(message);
      session := Act(session, Action.Steer(message), tools, toolExecution);
    }

    method FollowUp(message: Message)
      requires Valid()
      modifies this`session, followUpQueue
      ensures Valid() && session == Act(old(session), QueueFollowUp(message), tools, toolExecution)
      ensures followUpQueue.messages == old(followUpQueue.messages) + [message]
    {
      followUpQueue.Enqueue(message);
      session := Act(session, QueueFollowUp(message), tools, toolExecution);
    }

    method HasQueuedMessages() returns (r: bool)
      ensures r <==> steeringQueue.messages != [] || followUpQueue.messages != []
    {
      r := steeringQueue.HasItems();
      if !r {
        r := followUpQueue.HasItems();
      }
    }

    /** `runWithLifecycle` around the loop itself, when neither the loop nor a listener throws. */
    method RunPromptMessages(prompts: seq<Message>, poll: Poll, skipInitialSteeringPoll: bool, script: seq<TurnEnv>)
      requires Valid() && !activeRun
      modifies this, state, steeringQueue, followUpQueue
      ensures Valid()
      ensures session ==
              StartRun(Start(old(session), prompts, skipInitialSteeringPoll), tools, toolExecution, poll, script)
    {
      activeRun := true;
      state.BeginRun();
      var log := new EventLog();
      var host := new ToolHost();
      ghost var r := RunOf(Start(session, prompts, skipInitialSteeringPoll), tools, toolExecution, poll, script);
      var finished, newMessages, finalContext :=
        RunAgentLoop(prompts, Context(state.messages, tools), script, toolExecution, poll, skipInitialSteeringPoll,
                     log, host, steeringQueue, followUpQueue);
      Conclude(log.trace, finished, r, poll, script);
    }

    /** Delivers the events of a run and finishes it if it has ended. */
    method Conclude(trace: seq<Event>, finished: bool, ghost r: Loop, ghost poll: Poll, ghost script: seq<TurnEnv>)
      requires steeringQueue != followUpQueue && activeRun && state.isStreaming
      requires trace == r.trace && finished == r.finished
      requires steeringQueue.messages == r.steering && followUpQueue.messages == r.followUp
      requires state.Value() == session.view.(streaming := None, errorMessage := None)
      modifies this, state
      ensures Valid() && session == AfterRun(old(session), poll, script, r)
    {
      state.ProcessAll(trace);
      if finished {
        state.EndRun();
        activeRun := false;
      }
      session := AfterRun(session, poll, script, r);
    }

    /** `runContinuation`: the loop itself on a snapshot of the transcript, without new messages. */
    method RunContinuation(poll: Poll, script: seq<TurnEnv>)
      requires Valid() && !activeRun && CanContinue(state.messages)
      modifies this, state, steeringQueue, followUpQueue
      ensures Valid()
      ensures session == StartRun(Start(old(session), [], false), tools, toolExecution, poll, script)
    {
      activeRun := true;
      state.BeginRun();
      var log := new EventLog();
      var host := new ToolHost();
      var snapshot := new MessageList(state.messages);
      ghost var r := RunOf(Start(session, [], false), tools, toolExecution, poll, script);
      var refused, finished, newMessages, finalContext :=
        RunAgentLoopContinue(snapshot, tools, script, toolExecution, poll, log, host, steeringQueue, followUpQueue);
      Conclude(log.trace, finished, r, poll, script);
    }

    method Prompt(prompts: seq<Message>, poll: Poll, script: seq<TurnEnv>) returns (refusal: Option<Refusal>)
      requires Valid()
      modifies this, state, steeringQueue, followUpQueue
      ensures Valid() && session == Act(old(session), Action.Prompt(prompts, poll, script), tools, toolExecution)
      ensures refusal == if old(activeRun) then Some(Busy) else None
    {
      if activeRun {
        return Some(Busy);
      }
      RunPromptMessages(prompts, poll, false, script);
      refusal := None;
    }

    /** What `continue` takes off the queues after an assistant message: steering first, then follow-ups. */
    method DrainQueues(steeringMode: QueueMode, followUpMode: QueueMode) returns (queued: seq<Message>, skip: bool)
      requires Valid() && steeringQueue.mode == steeringMode && followUpQueue.mode == followUpMode
      requires state.messages != [] && state.messages[|state.messages| - 1].FromAssistant?
      modifies this`session, steeringQueue, followUpQueue
      ensures Valid()
      ensures queued == [] <==> old(steeringQueue.messages) == [] && old(followUpQueue.messages) == []
      ensures queued == [] ==> session == old(session)
      ensures Resumption(old(session), steeringMode, followUpMode) ==
              if queued == [] then None else Some(Start(session, queued, skip))
    {
      queued := steeringQueue.Drain();
      skip := true;
      if |queued| > 0 {
        session := session.(steering := Take(session.steering, steeringMode));
        return;
      }
      queued := followUpQueue.Drain();
      skip := false;
      if |queued| > 0 {
        session := session.(followUp := Take(session.followUp, followUpMode));
      }
    }

    /** The assistant-tail branch of `continue`: the queues supply the prompts, steering first. */
    method ContinueFromQueues(steeringMode: QueueMode, followUpMode: QueueMode, poll: Poll, script: seq<TurnEnv>)
      returns (refusal: Option<Refusal>)
      requires Valid() && !activeRun && steeringQueue.mode == steeringMode && followUpQueue.mode == followUpMode
      requires state.messages != [] && state.messages[|state.messages| - 1].FromAssistant?
      modifies this, state, steeringQueue, followUpQueue
      ensures Valid()
      ensures session ==
              Continued(old(session), steeringMode, followUpMode, tools, toolExecution, poll, script)
      ensures refusal == if old(steeringQueue.messages) == [] && old(followUpQueue.messages) == []
              then Some(EndsWithAssistant) else None
    {
      var queued, skip := DrainQueues(steeringMode, followUpMode);
      if |queued| == 0 {
        return Some(EndsWithAssistant);
      }
      RunPromptMessages(queued, poll, skip, script);
      refusal := None;
    }

    method Continue(steeringMode: QueueMode, followUpMode: QueueMode, poll: Poll, script: seq<TurnEnv>)
      returns (refusal: Option<Refusal>)
      requires Valid()
      modifies this, state, steeringQueue, followUpQueue
      ensures Valid()
      ensures session ==
              Act(old(session), Action.Continue(steeringMode, followUpMode, poll, script), tools, toolExecution)
      ensures refusal.None? <==>
              !old(activeRun) && old(state.messages) != [] &&
              (!old(state.messages)[|old(state.messages)| - 1].FromAssistant? ||
               old(steeringQueue.messages) != [] || old(followUpQueue.messages) != [])
      ensures refusal.Some? ==> session == old(session)
    {
      steeringQueue.mode, followUpQueue.mode := steeringMode, followUpMode;
      if activeRun {
        return Some(Busy);
      }
      if |state.messages| == 0 {
        return Some(NothingToContinue);
      }
      refusal := ContinueIdle(steeringMode, followUpMode, poll, script);
    }

    /** The rest of `continue`, for an idle agent with a transcript. */
    method ContinueIdle(steeringMode: QueueMode, followUpMode: QueueMode, poll: Poll, script: seq<TurnEnv>)
      returns (refusal: Option<Refusal>)
      requires Valid() && !activeRun && steeringQueue.mode == steeringMode && followUpQueue.mode == followUpMode
      requires state.messages != []
      modifies this, state, steeringQueue, followUpQueue
      ensures Valid()
      ensures session ==
              Continued(old(session), steeringMode, followUpMode, tools, toolExecution, poll, script)
      ensures refusal.None? <==>
              CanContinue(old(state.messages)) || old(steeringQueue.messages) != [] || old(followUpQueue.messages) != []
      ensures refusal.Some? ==> refusal.value == EndsWithAssistant
    {
      if state.messages[|state.messages| - 1].FromAssistant? {
        refusal := ContinueFromQueues(steeringMode, followUpMode, poll, script);
        return;
      }
      ContinuedAsIs(session, steeringMode, followUpMode, tools, toolExecution, poll, script);
      RunContinuation(poll, script);
      return None;
    }
  }
}
