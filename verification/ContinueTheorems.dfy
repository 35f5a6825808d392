/** What `continue` does, case by case: which queue it drains and what the run it starts begins with. */
module ContinueTheorems {
  import opened Options
  import opened AgentTypes
  import opened AgentState
  import opened MessageQueue
  import opened ToolBatch
  import opened LoopModel
  import opened LoopTheorems
  import opened QueueTheorems
  import opened SessionModel

  predicate EndsWithAnswer(s: Session) {
    s.view.messages != [] && s.view.messages[|s.view.messages| - 1].FromAssistant?
  }

  /** The session has gone through the run `r`, prompted with `prompts`; on each queue `r` took what it drained. */
  ghost predicate Ran(s: Session, s': Session, prompts: seq<Message>, r: Loop) {
    && s'.busy == !r.finished
    && prompts <= r.newMessages
    && s'.returned == s.returned + r.newMessages && s'.view.messages == s.view.messages + r.newMessages
  }

  ghost predicate Took(before: seq<Message>, lane: Lane, r: Loop, origin: Origin) {
    lane.taken == before + Injected(r.turns, origin) + Drained(r, origin) && lane.waiting == Queued(r, origin)
  }

  /** The run that is started on these prompts, with these messages left in the queues. */
  function RunFrom(
    s: Session, prompts: seq<Message>, steering: seq<Message>, followUp: seq<Message>, poll: Poll, skip: bool,
    tools: seq<Tool>, mode: Mode, script: seq<TurnEnv>): Loop
  {
    Run(Begun(Context(s.view.messages, tools), prompts, steering, followUp, poll, skip), script, mode)
  }

  lemma StartedRan(start: Start, tools: seq<Tool>, mode: Mode, poll: Poll, script: seq<TurnEnv>)
    ensures var s, s' := start.session, StartRun(start, tools, mode, poll, script);
            var r := RunFrom(
              s, start.prompts, s.steering.waiting, s.followUp.waiting, poll, start.skip, tools, mode, script);
            Ran(s, s', start.prompts, r) &&
            Took(s.steering.taken, s'.steering, r, Steering) && Took(s.followUp.taken, s'.followUp, r, FollowUp)
  {
    var s, r := start.session, RunOf(start, tools, mode, poll, script);
    var context := Context(s.view.messages, tools);
    BegunCopies(context, start.prompts, s.steering.waiting, s.followUp.waiting, poll, start.skip);
    RunCopies(LoopOf(start, tools, poll), script, mode, start.prompts);
    TranscriptFollowsTrace(s.view.(streaming := None, errorMessage := None), r.trace);
  }

  lemma FirstInjection(
    s: Session, prompts: seq<Message>, steering: seq<Message>, followUp: seq<Message>, poll: Poll, skip: bool,
    tools: seq<Tool>, mode: Mode, script: seq<TurnEnv>)
    ensures var r := RunFrom(s, prompts, steering, followUp, poll, skip, tools, mode, script);
            r.turns != [] ==>
              r.turns[0].injected == if skip then [] else Taken(poll.mode, steering + poll.arrivals)
  {
    InjectionRules(Context(s.view.messages, tools), prompts, steering, followUp, poll, skip, script, mode, 0);
  }

  lemma ContinueStarts(
    s: Session, steeringMode: QueueMode, followUpMode: QueueMode, poll: Poll, script: seq<TurnEnv>,
    tools: seq<Tool>, mode: Mode, start: Start)
    requires !s.busy && Resumption(s, steeringMode, followUpMode) == Some(start)
    ensures Act(s, Continue(steeringMode, followUpMode, poll, script), tools, mode) ==
            StartRun(start, tools, mode, poll, script)
  {
  }

  lemma SteeringResumes(s: Session, steeringMode: QueueMode, followUpMode: QueueMode)
    requires EndsWithAnswer(s) && s.steering.waiting != []
    ensures Resumption(s, steeringMode, followUpMode) ==
            Some(Start(s.(steering := Take(s.steering, steeringMode)), Taken(steeringMode, s.steering.waiting), true))
  {
  }

  lemma FollowUpResumes(s: Session, steeringMode: QueueMode, followUpMode: QueueMode)
    requires EndsWithAnswer(s) && s.steering.waiting == [] && s.followUp.waiting != []
    ensures Resumption(s, steeringMode, followUpMode) ==
            Some(Start(s.(followUp := Take(s.followUp, followUpMode)), Taken(followUpMode, s.followUp.waiting), false))
  {
  }

  /**
   * After an answer steering comes first: with a message waiting there the run is prompted with what the steering
   * queue gives up, its first turn injects nothing more, and no follow-up is taken but by the run itself.
   */
  lemma SteeringPromptsFirst(
    s: Session, steeringMode: QueueMode, followUpMode: QueueMode, poll: Poll, script: seq<TurnEnv>,
    tools: seq<Tool>, mode: Mode)
    requires !s.busy && EndsWithAnswer(s) && s.steering.waiting != []
    ensures var s' := Act(s, Continue(steeringMode, followUpMode, poll, script), tools, mode);
            var queue := s.steering.waiting;
            var prompts, left := Taken(steeringMode, queue), Left(steeringMode, queue);
            var r := RunFrom(s, prompts, left, s.followUp.waiting, poll, true, tools, mode, script);
            Ran(s, s', prompts, r) && prompts != [] && (r.turns != [] ==> r.turns[0].injected == []) &&
            Took(s.steering.taken + prompts, s'.steering, r, Steering) &&
            Took(s.followUp.taken, s'.followUp, r, FollowUp)
  {
    var queue := s.steering.waiting;
    var prompts, left := Taken(steeringMode, queue), Left(steeringMode, queue);
    TakenAndLeft(steeringMode, queue);
    var start := Start(s.(steering := Take(s.steering, steeringMode)), prompts, true);
    SteeringResumes(s, steeringMode, followUpMode);
    ContinueStarts(s, steeringMode, followUpMode, poll, script, tools, mode, start);
    StartedRan(start, tools, mode, poll, script);
    FirstInjection(s, prompts, left, s.followUp.waiting, poll, true, tools, mode, script);
  }

  /** With nothing to steer a waiting follow-up prompts the run; its first turn injects what its steering poll finds. */
  lemma FollowUpsPromptNext(
    s: Session, steeringMode: QueueMode, followUpMode: QueueMode, poll: Poll, script: seq<TurnEnv>,
    tools: seq<Tool>, mode: Mode)
    requires !s.busy && EndsWithAnswer(s) && s.steering.waiting == [] && s.followUp.waiting != []
    ensures var s' := Act(s, Continue(steeringMode, followUpMode, poll, script), tools, mode);
            var queue := s.followUp.waiting;
            var prompts, left := Taken(followUpMode, queue), Left(followUpMode, queue);
            var r := RunFrom(s, prompts, [], left, poll, false, tools, mode, script);
            Ran(s, s', prompts, r) && prompts != [] &&
            (r.turns != [] ==> r.turns[0].injected == Taken(poll.mode, poll.arrivals)) &&
            Took(s.steering.taken, s'.steering, r, Steering) &&
            Took(s.followUp.taken + prompts, s'.followUp, r, FollowUp)
  {
    var queue := s.followUp.waiting;
    var prompts, left := Taken(followUpMode, queue), Left(followUpMode, queue);
    TakenAndLeft(followUpMode, queue);
    var start := Start(s.(followUp := Take(s.followUp, followUpMode)), prompts, false);
    FollowUpResumes(s, steeringMode, followUpMode);
    ContinueStarts(s, steeringMode, followUpMode, poll, script, tools, mode, start);
    StartedRan(start, tools, mode, poll, script);
    FirstInjection(s, prompts, [], left, poll, false, tools, mode, script);
    assert [] + poll.arrivals == poll.arrivals;
  }

  /** Otherwise the run goes on from the transcript as it is, without prompts, if there is anything to answer. */
  lemma ContinuesAsIs(
    s: Session, steeringMode: QueueMode, followUpMode: QueueMode, poll: Poll, script: seq<TurnEnv>,
    tools: seq<Tool>, mode: Mode)
    requires !s.busy && !EndsWithAnswer(s) && s.view.messages != []
    ensures var s' := Act(s, Continue(steeringMode, followUpMode, poll, script), tools, mode);
            var r := RunFrom(s, [], s.steering.waiting, s.followUp.waiting, poll, false, tools, mode, script);
            Ran(s, s', [], r) &&
            (r.turns != [] ==> r.turns[0].injected == Taken(poll.mode, s.steering.waiting + poll.arrivals)) &&
            Took(s.steering.taken, s'.steering, r, Steering) && Took(s.followUp.taken, s'.followUp, r, FollowUp)
  {
    ContinueStarts(s, steeringMode, followUpMode, poll, script, tools, mode, Start(s, [], false));
    StartedRan(Start(s, [], false), tools, mode, poll, script);
    FirstInjection(s, [], s.steering.waiting, s.followUp.waiting, poll, false, tools, mode, script);
  }

  /** A session that is busy, empty, or answered with nothing queued is left as it is. */
  lemma NothingToContinue(
    s: Session, steeringMode: QueueMode, followUpMode: QueueMode, poll: Poll, script: seq<TurnEnv>,
    tools: seq<Tool>, mode: Mode)
    requires s.busy || s.view.messages == [] ||
             (EndsWithAnswer(s) && s.steering.waiting == [] && s.followUp.waiting == [])
    ensures Act(s, Continue(steeringMode, followUpMode, poll, script), tools, mode) == s
  {
  }

  /** A prompt runs on the transcript with both queues as they are, its first steering poll included. */
  lemma PromptRuns(s: Session, prompts: seq<Message>, poll: Poll, script: seq<TurnEnv>, tools: seq<Tool>, mode: Mode)
    requires !s.busy
    ensures var s' := Act(s, Prompt(prompts, poll, script), tools, mode);
            var r := RunFrom(s, prompts, s.steering.waiting, s.followUp.waiting, poll, false, tools, mode, script);
            Ran(s, s', prompts, r) &&
            (r.turns != [] ==> r.turns[0].injected == Taken(poll.mode, s.steering.waiting + poll.arrivals)) &&
            Took(s.steering.taken, s'.steering, r, Steering) && Took(s.followUp.taken, s'.followUp, r, FollowUp)
  {
    StartedRan(Start(s, prompts, false), tools, mode, poll, script);
    FirstInjection(s, prompts, s.steering.waiting, s.followUp.waiting, poll, false, tools, mode, script);
  }
}
