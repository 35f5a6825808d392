/** A whole session of an agent: queueing and running, one action after another. */
module SessionModel {
  import opened Options
  import opened AgentTypes
  import opened Sequences
  import opened AgentState
  import opened MessageQueue
  import opened ToolBatch
  import opened LoopModel
  import opened LoopTheorems
  import opened QueueTheorems

  /** One queue over the session: all that ever entered it, all that was taken off, and what waits. */
  datatype Lane = Lane(entered: seq<Message>, taken: seq<Message>, waiting: seq<Message>)

  /**
   * `view` is the agent's own state, reduced from the events of its runs; `returned` collects what the runs
   * themselves say they produced; `busy` while a run has not finished.
   */
  datatype Session = Session(
    view: View, steering: Lane, followUp: Lane, returned: seq<Message>, busy: bool)

  datatype Action =
    | Steer(message: Message)
    | QueueFollowUp(message: Message)
    | Prompt(prompts: seq<Message>, poll: Poll, script: seq<TurnEnv>)
    | Continue(steeringMode: QueueMode, followUpMode: QueueMode, poll: Poll, script: seq<TurnEnv>)

  function Enter(lane: Lane, arrivals: seq<Message>): Lane {
    lane.(entered := lane.entered + arrivals, waiting := lane.waiting + arrivals)
  }

  function Take(lane: Lane, mode: QueueMode): Lane {
    lane.(taken := lane.taken + Taken(mode, lane.waiting), waiting := Left(mode, lane.waiting))
  }

  /** What a run does to a queue. */
  function Pass(lane: Lane, arrivals: seq<Message>, r: Loop, origin: Origin): Lane {
    Lane(lane.entered + arrivals, lane.taken + Injected(r.turns, origin) + Drained(r, origin), Queued(r, origin))
  }

  /** A run to be started: from which state, with which prompts, and whether it skips its first poll. */
  datatype Start = Start(session: Session, prompts: seq<Message>, skip: bool)

  function LoopOf(start: Start, tools: seq<Tool>, poll: Poll): Loop {
    var s := start.session;
    Begun(Context(s.view.messages, tools), start.prompts, s.steering.waiting, s.followUp.waiting, poll, start.skip)
  }

  function RunOf(start: Start, tools: seq<Tool>, mode: Mode, poll: Poll, script: seq<TurnEnv>): Loop {
    Run(LoopOf(start, tools, poll), script, mode)
  }

  /** What arrives while a run uses up its part of the script. */
  function ArrivedDuring(script: seq<TurnEnv>, r: Loop, origin: Origin): seq<Message> {
    if |r.turns| <= |script| then Arrivals(script[..|r.turns|], origin) else []
  }

  /** The agent's state after a run: reset, reduced over the run's events, cleared if the run finished. */
  function Reduced(v: View, r: Loop): View {
    var v' := ReduceAll(v.(streaming := None, errorMessage := None), r.trace);
    if r.finished then v'.(streaming := None, pending := {}) else v'
  }

  function AfterRun(s: Session, poll: Poll, script: seq<TurnEnv>, r: Loop): Session {
    Session(Reduced(s.view, r),
            Pass(s.steering, poll.arrivals + ArrivedDuring(script, r, Steering), r, Steering),
            Pass(s.followUp, ArrivedDuring(script, r, FollowUp), r, FollowUp),
            s.returned + r.newMessages, !r.finished)
  }

  function StartRun(start: Start, tools: seq<Tool>, mode: Mode, poll: Poll, script: seq<TurnEnv>): Session {
    AfterRun(start.session, poll, script, RunOf(start, tools, mode, poll, script))
  }

  /** What `continue` starts: after an assistant message the queues supply the prompts, steering first. */
  function Resumption(s: Session, steeringMode: QueueMode, followUpMode: QueueMode): Option<Start> {
    if s.view.messages == [] then None
    else if !s.view.messages[|s.view.messages| - 1].FromAssistant? then Some(Start(s, [], false))
    else if s.steering.waiting != [] then
      Some(Start(s.(steering := Take(s.steering, steeringMode)), Taken(steeringMode, s.steering.waiting), true))
    else if s.followUp.waiting != [] then
      Some(Start(s.(followUp := Take(s.followUp, followUpMode)), Taken(followUpMode, s.followUp.waiting), false))
    else None
  }

  /** Where the code and the documentation part: a transcript that ends in a custom message is continued. */
  lemma CustomIsContinued(s: Session, steeringMode: QueueMode, followUpMode: QueueMode)
    requires s.view.messages != [] && s.view.messages[|s.view.messages| - 1].Custom?
    ensures Resumption(s, steeringMode, followUpMode) == Some(Start(s, [], false))
  {
  }

  /** What `continue` makes of an idle session. */
  function Continued(
    s: Session, steeringMode: QueueMode, followUpMode: QueueMode, tools: seq<Tool>, mode: Mode,
    poll: Poll, script: seq<TurnEnv>): Session
  {
    match Resumption(s, steeringMode, followUpMode)
    case None => s
    case Some(start) => StartRun(start, tools, mode, poll, script)
  }

  lemma ContinuedAsIs(
    s: Session, steeringMode: QueueMode, followUpMode: QueueMode, tools: seq<Tool>, mode: Mode,
    poll: Poll, script: seq<TurnEnv>)
    requires s.view.messages != [] && !s.view.messages[|s.view.messages| - 1].FromAssistant?
    ensures Continued(s, steeringMode, followUpMode, tools, mode, poll, script) ==
            StartRun(Start(s, [], false), tools, mode, poll, script)
  {
  }

  function Act(s: Session, a: Action, tools: seq<Tool>, mode: Mode): Session {
    match a
    case Steer(m) => s.(steering := Enter(s.steering, [m]))
    case QueueFollowUp(m) => s.(followUp := Enter(s.followUp, [m]))
    case Prompt(prompts, poll, script) =>
      if s.busy then s else StartRun(Start(s, prompts, false), tools, mode, poll, script)
    case Continue(sm, fm, poll, script) => if s.busy then s else Continued(s, sm, fm, tools, mode, poll, script)
  }

  function ActAll(s: Session, actions: seq<Action>, tools: seq<Tool>, mode: Mode): Session {
    if actions == [] then s
    else Act(ActAll(s, actions[..|actions| - 1], tools, mode), actions[|actions| - 1], tools, mode)
  }

  predicate Balanced(lane: Lane) {
    lane.entered == lane.taken + lane.waiting
  }

  lemma EnterBalances(lane: Lane, arrivals: seq<Message>)
    requires Balanced(lane)
    ensures Balanced(Enter(lane, arrivals))
  {
  }

  lemma TakeBalances(lane: Lane, mode: QueueMode)
    requires Balanced(lane)
    ensures Balanced(Take(lane, mode))
  {
    TakenAndLeft(mode, lane.waiting);
    Assoc(lane.taken, Taken(mode, lane.waiting), Left(mode, lane.waiting));
  }

  lemma PassBalances(lane: Lane, start: Loop, script: seq<TurnEnv>, mode: Mode, first: seq<Message>, origin: Origin)
    requires Balanced(lane) && start.turns == [] && !start.finished
    requires Drained(start, origin) + Queued(start, origin) == lane.waiting + first
    ensures var r := Run(start, script, mode);
            Balanced(Pass(lane, first + ArrivedDuring(script, r, origin), r, origin))
  {
    var r := Run(start, script, mode);
    RunConservesQueue(start, script, mode, origin);
    AccountedAtStart(start, origin);
    var arrived := Arrivals(script[..|r.turns|], origin);
    Rebalance(
      lane.taken, lane.waiting, first, arrived, Injected(r.turns, origin), Drained(r, origin), Queued(r, origin));
  }

  lemma Rebalance<T>(taken: seq<T>, waiting: seq<T>, first: seq<T>, arrived: seq<T>, a: seq<T>, b: seq<T>, c: seq<T>)
    requires a + (b + c) == waiting + first + arrived
    ensures taken + waiting + (first + arrived) == taken + a + b + c
  {
    assert taken + waiting + (first + arrived) == taken + (waiting + first + arrived);
    assert taken + a + b + c == taken + (a + (b + c));
  }

  /**
   * No message is lost, invented or reordered on its way through a queue, and the transcript is what the runs returned.
   */
  predicate Kept(s: Session, initial: seq<Message>) {
    && Balanced(s.steering) && Balanced(s.followUp)
    && s.view.messages == initial + s.returned
    && (!s.busy ==> s.view.streaming.None? && s.view.pending == {})
  }

  /** What was taken off either queue is among these messages, in the order in which it was queued. */
  ghost predicate Arrived(s: Session, messages: seq<Message>) {
    Sub(s.steering.taken, messages) && Sub(s.followUp.taken, messages)
  }

  /** Between runs, moreover, everything that was taken off a queue has reached the transcript. */
  ghost predicate Sound(s: Session, initial: seq<Message>) {
    Kept(s, initial) && (!s.busy ==> Arrived(s, s.returned))
  }

  lemma ArrivedStays(s: Session, messages: seq<Message>, more: seq<Message>)
    requires Arrived(s, messages)
    ensures Arrived(s, messages + more)
  {
    SubConcat(s.steering.taken, messages, [], more);
    SubConcat(s.followUp.taken, messages, [], more);
    assert s.steering.taken + [] == s.steering.taken && s.followUp.taken + [] == s.followUp.taken;
  }

  lemma TurnHoldsInjected(turn: Turn, origin: Origin)
    ensures Sub(if turn.origin == origin then turn.injected else [], TurnMessages(turn))
  {
    SubSelf(turn.injected);
    SubConcat(turn.injected, turn.injected, [], [FromAssistant(turn.message)] + turn.results);
    Assoc(turn.injected, [FromAssistant(turn.message)], turn.results);
    assert turn.injected + [] == turn.injected;
  }

  /** What the turns inject is part of what they add to the conversation. */
  lemma {:induction false} InjectedIsInTranscript(turns: seq<Turn>, origin: Origin)
    ensures Sub(Injected(turns, origin), Transcript(turns))
  {
    if turns != [] {
      var init, last := turns[..|turns| - 1], turns[|turns| - 1];
      InjectedIsInTranscript(init, origin);
      TurnHoldsInjected(last, origin);
      SubConcat(
        Injected(init, origin), Transcript(init),
        if last.origin == origin then last.injected else [], TurnMessages(last));
    }
  }

  /** A finished run brings what it drained, after what was taken before and what it was prompted with. */
  lemma PassArrives(
    lane: Lane, returned: seq<Message>, prompts: seq<Message>, r: Loop, arrivals: seq<Message>, origin: Origin)
    requires Sub(lane.taken, returned + prompts) && CopiesAgree(r, prompts) && r.finished
    ensures Sub(Pass(lane, arrivals, r, origin).taken, returned + r.newMessages)
  {
    InjectedIsInTranscript(r.turns, origin);
    SubConcat(lane.taken, returned + prompts, Injected(r.turns, origin), Transcript(r.turns));
    Assoc(returned, prompts, Transcript(r.turns));
    assert lane.taken + Injected(r.turns, origin) + [] == lane.taken + Injected(r.turns, origin);
  }

  lemma StartRunArrives(start: Start, tools: seq<Tool>, mode: Mode, poll: Poll, script: seq<TurnEnv>)
    requires Arrived(start.session, start.session.returned + start.prompts)
    ensures var s := StartRun(start, tools, mode, poll, script); !s.busy ==> Arrived(s, s.returned)
  {
    var s, first := start.session, LoopOf(start, tools, poll);
    var r := Run(first, script, mode);
    BegunCopies(
      Context(s.view.messages, tools), start.prompts, s.steering.waiting, s.followUp.waiting, poll, start.skip);
    RunCopies(first, script, mode, start.prompts);
    if r.finished {
      var arrived := ArrivedDuring(script, r, Steering);
      PassArrives(s.steering, s.returned, start.prompts, r, poll.arrivals + arrived, Steering);
      PassArrives(s.followUp, s.returned, start.prompts, r, ArrivedDuring(script, r, FollowUp), FollowUp);
    }
  }

  lemma StartRunKeeps(
    start: Start, tools: seq<Tool>, mode: Mode, poll: Poll, script: seq<TurnEnv>, initial: seq<Message>)
    requires Kept(start.session, initial)
    ensures Kept(StartRun(start, tools, mode, poll, script), initial)
  {
    var s, first := start.session, LoopOf(start, tools, poll);
    var r := Run(first, script, mode);
    BegunAccounts(
      Context(s.view.messages, tools), start.prompts, s.steering.waiting, s.followUp.waiting, poll, start.skip);
    assert s.followUp.waiting + [] == s.followUp.waiting;
    PassBalances(s.steering, first, script, mode, poll.arrivals, Steering);
    PassBalances(s.followUp, first, script, mode, [], FollowUp);
    assert [] + ArrivedDuring(script, r, FollowUp) == ArrivedDuring(script, r, FollowUp);
    BegunCopies(
      Context(s.view.messages, tools), start.prompts, s.steering.waiting, s.followUp.waiting, poll, start.skip);
    RunCopies(first, script, mode, start.prompts);
    TranscriptFollowsTrace(s.view.(streaming := None, errorMessage := None), r.trace);
    Assoc(initial, s.returned, r.newMessages);
  }

  /** A run may be started: whatever was taken off a queue is in the transcript or among the prompts. */
  ghost predicate Startable(start: Start, initial: seq<Message>) {
    Kept(start.session, initial) && Arrived(start.session, start.session.returned + start.prompts)
  }

  lemma StartRunSound(
    start: Start, tools: seq<Tool>, mode: Mode, poll: Poll, script: seq<TurnEnv>, initial: seq<Message>)
    requires Startable(start, initial)
    ensures Sound(StartRun(start, tools, mode, poll, script), initial)
  {
    StartRunKeeps(start, tools, mode, poll, script, initial);
    StartRunArrives(start, tools, mode, poll, script);
  }

  lemma PromptStartable(s: Session, prompts: seq<Message>, skip: bool, initial: seq<Message>)
    requires Sound(s, initial) && !s.busy
    ensures Startable(Start(s, prompts, skip), initial)
  {
    ArrivedStays(s, s.returned, prompts);
  }

  /** Taken off a queue as prompts, messages arrive with the run they prompt. */
  lemma TakeArrives(lane: Lane, mode: QueueMode, messages: seq<Message>)
    requires Sub(lane.taken, messages)
    ensures Sub(Take(lane, mode).taken, messages + Taken(mode, lane.waiting))
  {
    SubSelf(Taken(mode, lane.waiting));
    SubConcat(lane.taken, messages, Taken(mode, lane.waiting), Taken(mode, lane.waiting));
  }

  lemma SteeringStartable(s: Session, mode: QueueMode, skip: bool, initial: seq<Message>)
    requires Sound(s, initial) && !s.busy
    ensures Startable(Start(s.(steering := Take(s.steering, mode)), Taken(mode, s.steering.waiting), skip), initial)
  {
    TakeBalances(s.steering, mode);
    ArrivedStays(s, s.returned, Taken(mode, s.steering.waiting));
    TakeArrives(s.steering, mode, s.returned);
  }

  lemma FollowUpStartable(s: Session, mode: QueueMode, skip: bool, initial: seq<Message>)
    requires Sound(s, initial) && !s.busy
    ensures Startable(Start(s.(followUp := Take(s.followUp, mode)), Taken(mode, s.followUp.waiting), skip), initial)
  {
    TakeBalances(s.followUp, mode);
    ArrivedStays(s, s.returned, Taken(mode, s.followUp.waiting));
    TakeArrives(s.followUp, mode, s.returned);
  }

  lemma ResumptionSound(s: Session, steeringMode: QueueMode, followUpMode: QueueMode, initial: seq<Message>)
    requires Sound(s, initial) && !s.busy
    ensures var start := Resumption(s, steeringMode, followUpMode); start.Some? ==> Startable(start.value, initial)
  {
    PromptStartable(s, [], false, initial);
    SteeringStartable(s, steeringMode, true, initial);
    FollowUpStartable(s, followUpMode, false, initial);
  }

  lemma ActSound(s: Session, a: Action, tools: seq<Tool>, mode: Mode, initial: seq<Message>)
    requires Sound(s, initial)
    ensures Sound(Act(s, a, tools, mode), initial)
  {
    match a {
      case Steer(m) => EnterBalances(s.steering, [m]);
      case QueueFollowUp(m) => EnterBalances(s.followUp, [m]);
      case Prompt(prompts, poll, script) =>
        if !s.busy {
          PromptStartable(s, prompts, false, initial);
          StartRunSound(Start(s, prompts, false), tools, mode, poll, script, initial);
        }
      case Continue(sm, fm, poll, script) =>
        var start := Resumption(s, sm, fm);
        if !s.busy && start.Some? {
          ResumptionSound(s, sm, fm, initial);
          StartRunSound(start.value, tools, mode, poll, script, initial);
        }
    }
  }

  /** Over any sequence of actions, runs included. */
  lemma {:induction false} SessionSound(
    s: Session, actions: seq<Action>, tools: seq<Tool>, mode: Mode, initial: seq<Message>)
    requires Sound(s, initial)
    ensures Sound(ActAll(s, actions, tools, mode), initial)
  {
    if actions != [] {
      SessionSound(s, actions[..|actions| - 1], tools, mode, initial);
      ActSound(ActAll(s, actions[..|actions| - 1], tools, mode), actions[|actions| - 1], tools, mode, initial);
    }
  }
}
