/** No queued message is lost, duplicated or reordered, and a run with finite work ends. */
module QueueTheorems {
  import opened AgentTypes
  import opened Sequences
  import opened MessageQueue
  import opened ToolBatch
  import opened LoopModel
  import opened LoopTheorems

  function Injected(turns: seq<Turn>, origin: Origin): seq<Message> {
    if turns == [] then []
    else
      var last := turns[|turns| - 1];
      Injected(turns[..|turns| - 1], origin) + if last.origin == origin then last.injected else []
  }

  function Arrivals(script: seq<TurnEnv>, origin: Origin): seq<Message> {
    if script == [] then []
    else
      var last := script[|script| - 1];
      Arrivals(script[..|script| - 1], origin) + if origin.Steering? then last.steering.arrivals
        else last.followUp.arrivals
  }

  function Queued(s: Loop, origin: Origin): seq<Message> {
    if origin.Steering? then s.steering else s.followUp
  }

  function Drained(s: Loop, origin: Origin): seq<Message> {
    if s.origin == origin then s.pending else []
  }

  /** Everything a queue has ever held, oldest first: injected, drained and about to be, still queued. */
  function Accounted(s: Loop, origin: Origin): seq<Message> {
    Injected(s.turns, origin) + (Drained(s, origin) + Queued(s, origin))
  }

  lemma TakenAndLeft(mode: QueueMode, queue: seq<Message>)
    ensures Taken(mode, queue) + Left(mode, queue) == queue
    ensures Taken(mode, queue) == [] <==> queue == []
    ensures mode.OneAtATime? ==> |Taken(mode, queue)| <= 1
  {
  }

  lemma RunTurnAccounts(s: Loop, env: TurnEnv, mode: Mode, origin: Origin)
    ensures var t := RunTurn(s, env, mode);
            Accounted(t, origin) == Accounted(s, origin) && t.pending == [] &&
            t.steering == s.steering && t.followUp == s.followUp
  {
    var t := RunTurn(s, env, mode);
    assert t.turns[..|s.turns|] == s.turns;
    Assoc(Injected(s.turns, origin), Drained(s, origin), Queued(s, origin));
    assert [] + Queued(s, origin) == Queued(s, origin);
  }

  lemma PollsAccount(t: Loop, env: TurnEnv, origin: Origin)
    requires t.pending == []
    ensures var s := OuterPoll(AfterTurn(Arrive(t, env), env), env);
            s.turns == t.turns &&
            Drained(s, origin) + Queued(s, origin) ==
              Queued(t, origin) + if origin.Steering? then env.steering.arrivals else env.followUp.arrivals
  {
    TakenAndLeft(env.steering.mode, t.steering + env.steering.arrivals);
    TakenAndLeft(env.followUp.mode, t.followUp + env.followUp.arrivals);
  }

  lemma StepAccounts(s: Loop, env: TurnEnv, mode: Mode, origin: Origin)
    ensures Accounted(Step(s, env, mode), origin) ==
            Accounted(s, origin) + if origin.Steering? then env.steering.arrivals else env.followUp.arrivals
  {
    var t := RunTurn(s, env, mode);
    RunTurnAccounts(s, env, mode, origin);
    PollsAccount(t, env, origin);
    var arrived := if origin.Steering? then env.steering.arrivals else env.followUp.arrivals;
    assert Drained(t, origin) == [] && [] + Queued(t, origin) == Queued(t, origin);
    Assoc(Injected(t.turns, origin), Queued(t, origin), arrived);
  }

  /** Everything the queue has held is what it was owed at the start and what has arrived since. */
  ghost predicate Conserved(r: Loop, owed: seq<Message>, script: seq<TurnEnv>, origin: Origin) {
    UsesScript(r, script) && Accounted(r, origin) == owed + Arrivals(script[..|r.turns|], origin)
  }

  lemma StepConserves(r: Loop, owed: seq<Message>, script: seq<TurnEnv>, env: TurnEnv, mode: Mode, origin: Origin)
    requires Conserved(r, owed, script, origin) && !r.finished
    ensures Conserved(Step(r, env, mode), owed, script + [env], origin)
  {
    StepTrace(r, env, mode);
    StepAccounts(r, env, mode, origin);
    var arrived := if origin.Steering? then env.steering.arrivals else env.followUp.arrivals;
    assert script[..|script|] == script && (script + [env])[..|script| + 1] == script + [env];
    assert (script + [env])[..|script|] == script;
    Assoc(owed, Arrivals(script, origin), arrived);
  }

  /**
   * Queue conservation over any part of a run, for either queue: what was queued at the start followed by
   * what arrived is what was injected, in order, followed by what is drained or still queued.
   */
  lemma {:induction false} RunConservesQueue(s: Loop, script: seq<TurnEnv>, mode: Mode, origin: Origin)
    requires s.turns == [] && !s.finished
    ensures Conserved(Run(s, script, mode), Accounted(s, origin), script, origin)
  {
    var owed := Accounted(s, origin);
    var p := (r: Loop, done: seq<TurnEnv>) => Conserved(r, owed, done, origin);
    assert owed + [] == owed;
    forall r, done, env | p(r, done) ensures p(Next(mode)(r, env), done + [env]) {
      if r.finished {
        assert (done + [env])[..|r.turns|] == done[..|r.turns|];
      } else {
        StepConserves(r, owed, done, env, mode, origin);
      }
    }
    RunInduction(s, script, mode, p);
  }

  /** At every normal return nothing that was drained is lost: all of it has been injected. */
  lemma FinishedRunLosesNothing(s: Loop, script: seq<TurnEnv>, mode: Mode, prompts: seq<Message>, origin: Origin)
    requires s.turns == [] && CopiesAgree(s, prompts) && !s.finished
    ensures var r := Run(s, script, mode);
            UsesScript(r, script) &&
            (r.finished ==>
              Injected(r.turns, origin) + Queued(r, origin) ==
                Drained(s, origin) + Queued(s, origin) + Arrivals(script[..|r.turns|], origin))
  {
    RunConservesQueue(s, script, mode, origin);
    FinishedOwesNothing(s, script, mode, prompts);
    AccountedAtStart(s, origin);
    if Run(s, script, mode).finished {
      AccountedWhenEmpty(Run(s, script, mode), origin);
    }
  }

  lemma FinishedOwesNothing(s: Loop, script: seq<TurnEnv>, mode: Mode, prompts: seq<Message>)
    requires CopiesAgree(s, prompts)
    ensures Run(s, script, mode).finished ==> Run(s, script, mode).pending == []
  {
    RunCopies(s, script, mode, prompts);
  }

  lemma AccountedAtStart(s: Loop, origin: Origin)
    requires s.turns == []
    ensures Accounted(s, origin) == Drained(s, origin) + Queued(s, origin)
  {
    assert [] + (Drained(s, origin) + Queued(s, origin)) == Drained(s, origin) + Queued(s, origin);
  }

  lemma AccountedWhenEmpty(r: Loop, origin: Origin)
    requires r.pending == []
    ensures Accounted(r, origin) == Injected(r.turns, origin) + Queued(r, origin)
  {
    assert Drained(r, origin) == [] && [] + Queued(r, origin) == Queued(r, origin);
  }

  /** A fresh run owes its queues what they held and what arrived before the first poll. */
  lemma BegunAccounts(
    context: Context, prompts: seq<Message>, steering: seq<Message>, followUp: seq<Message>, poll: Poll, skip: bool)
    ensures var s := Begun(context, prompts, steering, followUp, poll, skip);
            Drained(s, Steering) + Queued(s, Steering) == steering + poll.arrivals &&
            Drained(s, FollowUp) + Queued(s, FollowUp) == followUp
  {
    TakenAndLeft(poll.mode, steering + poll.arrivals);
  }

  // ---------- What may be injected when ----------

  /**
   * How the messages of a turn were chosen after the previous one, from `before`, the loop that took the
   * previous turn. Steering comes first; a follow-up only if its poll found nothing and no tool batch continues.
   */
  ghost predicate Polled(before: Loop, env: TurnEnv, previous: Turn, origin: Origin, injected: seq<Message>) {
    var steering, followUp := before.steering + env.steering.arrivals, before.followUp + env.followUp.arrivals;
    && (origin.FollowUp? <==> steering == [] && !previous.more)
    && injected == (if origin.Steering? then Taken(env.steering.mode, steering) else Taken(env.followUp.mode, followUp))
    && (origin.Steering? && env.steering.mode.OneAtATime? ==> |injected| <= 1)
    && (origin.FollowUp? ==> injected != [])
  }

  lemma StepPolls(s: Loop, env: TurnEnv, mode: Mode)
    requires !s.finished && !Step(s, env, mode).finished
    ensures var s' := Step(s, env, mode);
            |s'.turns| == |s.turns| + 1 && Polled(s, env, s'.turns[|s.turns|], s'.origin, s'.pending)
  {
    StepTrace(s, env, mode);
  }

  lemma StepAddsTurn(s: Loop, env: TurnEnv, mode: Mode)
    requires !s.finished
    ensures s.turns <= Step(s, env, mode).turns
  {
    StepTrace(s, env, mode);
  }

  lemma OneMoreKeepsTurns(s: Loop, script: seq<TurnEnv>, k: nat, mode: Mode)
    requires k < |script|
    ensures Run(s, script[..k], mode).turns <= Run(s, script[..k + 1], mode).turns
  {
    RunSnoc(s, script, k + 1, mode);
    var before := Run(s, script[..k], mode);
    if !before.finished {
      StepAddsTurn(before, script[k], mode);
    }
  }

  lemma {:induction false} TurnsArePrefix(s: Loop, script: seq<TurnEnv>, k: nat, mode: Mode)
    requires k <= |script|
    ensures Run(s, script[..k], mode).turns <= Run(s, script, mode).turns
    decreases |script| - k
  {
    if k == |script| {
      assert script[..k] == script;
    } else {
      TurnsArePrefix(s, script, k + 1, mode);
      OneMoreKeepsTurns(s, script, k, mode);
    }
  }

  ghost predicate Peek(i: nat) {
    true
  }

  /**
   * Turn i of a run is the one taken from the state after i answers. Closed to the solver, which looks inside
   * only where `Peek` is mentioned.
   */
  ghost predicate TakenFrom(s: Loop, script: seq<TurnEnv>, mode: Mode, i: nat, turn: Turn) {
    forall n: nat {:trigger Peek(n)} :: Peek(n) && n == i ==> n < |script| && IsTurnOf(s, script, mode, n, turn)
  }

  ghost predicate IsTurnOf(s: Loop, script: seq<TurnEnv>, mode: Mode, i: nat, turn: Turn)
    requires i < |script|
  {
    var before := Run(s, script[..i], mode);
    && !before.finished && |before.turns| == i && turn.origin == before.origin && turn.injected == before.pending
    && Run(s, script[..i + 1], mode) == Step(before, script[i], mode) &&
       Step(before, script[i], mode).turns[i..] == [turn]
  }

  lemma RunUses(s: Loop, script: seq<TurnEnv>, mode: Mode)
    requires s.turns == [] && !s.finished
    ensures UsesScript(Run(s, script, mode), script)
  {
    RunConservesQueue(s, script, mode, Steering);
  }

  lemma GoesOnBefore(s: Loop, script: seq<TurnEnv>, mode: Mode, i: nat)
    requires s.turns == [] && !s.finished
    ensures i < |Run(s, script, mode).turns| ==>
            i < |script| && var before := Run(s, script[..i], mode); !before.finished && |before.turns| == i
  {
    RunUses(s, script, mode);
    if i < |script| {
      RunUses(s, script[..i], mode);
      if Run(s, script[..i], mode).finished {
        RunIgnoresRest(s, script, i, mode);
      }
    }
  }

  lemma StepTakes(before: Loop, env: TurnEnv, mode: Mode, turns: seq<Turn>, i: nat)
    requires !before.finished && |before.turns| == i < |turns| && Step(before, env, mode).turns <= turns
    ensures turns[i].origin == before.origin && turns[i].injected == before.pending
    ensures Step(before, env, mode).turns[i..] == [turns[i]]
  {
    StepTrace(before, env, mode);
  }

  lemma TurnTaken(s: Loop, script: seq<TurnEnv>, mode: Mode, i: nat)
    requires s.turns == [] && !s.finished
    ensures var turns := Run(s, script, mode).turns; i < |turns| ==> TakenFrom(s, script, mode, i, turns[i])
  {
    var turns := Run(s, script, mode).turns;
    GoesOnBefore(s, script, mode, i);
    if i < |turns| {
      RunSnoc(s, script, i + 1, mode);
      TurnsArePrefix(s, script, i + 1, mode);
      StepTakes(Run(s, script[..i], mode), script[i], mode, turns, i);
    }
  }

  /** Turn i of these, i > 0, was chosen by the polls after turn i - 1. */
  ghost predicate PolledAt(s: Loop, script: seq<TurnEnv>, mode: Mode, turns: seq<Turn>, i: nat)
    requires 0 < i < |turns|
  {
    i < |script| &&
      Polled(Run(s, script[..i - 1], mode), script[i - 1], turns[i - 1], turns[i].origin, turns[i].injected)
  }

  lemma TakenIsPolled(s: Loop, script: seq<TurnEnv>, mode: Mode, turns: seq<Turn>, i: nat)
    requires 0 < i < |turns|
    requires TakenFrom(s, script, mode, i - 1, turns[i - 1]) && TakenFrom(s, script, mode, i, turns[i])
    ensures PolledAt(s, script, mode, turns, i)
  {
    assert Peek(i - 1) && Peek(i);
    var before := Run(s, script[..i - 1], mode);
    StepPolls(before, script[i - 1], mode);
    assert Step(before, script[i - 1], mode).turns[i - 1] == turns[i - 1];
  }

  lemma FirstTurnInjects(s: Loop, script: seq<TurnEnv>, mode: Mode)
    requires s.turns == [] && !s.finished
    ensures var turns := Run(s, script, mode).turns;
            turns != [] ==> turns[0].origin == s.origin && turns[0].injected == s.pending
  {
    TurnTaken(s, script, mode, 0);
    assert Peek(0) && script[..0] == [];
  }

  /**
   * Injection over whole runs: the first turn injects what the first poll took, one message at most when it is
   * one at a time; every later turn injects what the polls after the turn before it took, by the rule above.
   */
  lemma InjectionRules(
    context: Context, prompts: seq<Message>, steering: seq<Message>, followUp: seq<Message>, poll: Poll, skip: bool,
    script: seq<TurnEnv>, mode: Mode, i: nat)
    ensures var s := Begun(context, prompts, steering, followUp, poll, skip);
            var turns := Run(s, script, mode).turns;
            i < |turns| ==>
              if i == 0 then
                turns[0].origin.Steering? &&
                turns[0].injected == (if skip then [] else Taken(poll.mode, steering + poll.arrivals)) &&
                (poll.mode.OneAtATime? ==> |turns[0].injected| <= 1)
              else
                PolledAt(s, script, mode, turns, i)
  {
    var s := Begun(context, prompts, steering, followUp, poll, skip);
    var turns := Run(s, script, mode).turns;
    FirstTurnInjects(s, script, mode);
    TurnTaken(s, script, mode, i);
    if 0 < i < |turns| {
      TurnTaken(s, script, mode, i - 1);
      TakenIsPolled(s, script, mode, turns, i);
    }
  }

  // ---------- When a run goes on ----------

  /** The response failed, a hook stops the run, or no continuing batch and no queued message calls for another turn. */
  ghost predicate MustEnd(before: Loop, env: TurnEnv, turn: Turn) {
    || env.final.stopReason.Error? || env.final.stopReason.Aborted? || env.stop
    || (!turn.more && before.steering + env.steering.arrivals == [] && before.followUp + env.followUp.arrivals == [])
  }

  lemma StepEndsExactly(s: Loop, env: TurnEnv, mode: Mode)
    requires !s.finished
    ensures var s' := Step(s, env, mode);
            |s'.turns| == |s.turns| + 1 && (s'.finished <==> MustEnd(s, env, s'.turns[|s.turns|]))
  {
    StepTrace(s, env, mode);
    TakenAndLeft(env.steering.mode, s.steering + env.steering.arrivals);
    TakenAndLeft(env.followUp.mode, s.followUp + env.followUp.arrivals);
  }

  /** After turn i the run has ended exactly if it must, and otherwise takes the next answer if there is one. */
  ghost predicate EndsExactly(s: Loop, script: seq<TurnEnv>, mode: Mode, turns: seq<Turn>, i: nat)
    requires i < |turns|
  {
    i < |script| &&
    var must := MustEnd(Run(s, script[..i], mode), script[i], turns[i]);
    && (Run(s, script[..i + 1], mode).finished <==> must)
    && (i + 1 < |turns| <==> !must && i + 1 < |script|)
  }

  lemma TakenEndsExactly(s: Loop, script: seq<TurnEnv>, mode: Mode, i: nat, turn: Turn)
    requires TakenFrom(s, script, mode, i, turn)
    ensures i < |script|
    ensures Run(s, script[..i + 1], mode).finished <==> MustEnd(Run(s, script[..i], mode), script[i], turn)
  {
    assert Peek(i);
    var before := Run(s, script[..i], mode);
    StepEndsExactly(before, script[i], mode);
    assert Step(before, script[i], mode).turns[i] == turn;
  }

  /** A run that has not finished after k answers takes the next one as a turn. */
  lemma AnswerIsTaken(s: Loop, script: seq<TurnEnv>, mode: Mode, k: nat)
    requires s.turns == [] && !s.finished && k < |script|
    ensures !Run(s, script[..k], mode).finished ==> k < |Run(s, script, mode).turns|
  {
    var before := Run(s, script[..k], mode);
    if !before.finished {
      RunUses(s, script[..k], mode);
      RunSnoc(s, script, k + 1, mode);
      StepTrace(before, script[k], mode);
      TurnsArePrefix(s, script, k + 1, mode);
    }
  }

  lemma TurnEndsExactly(s: Loop, script: seq<TurnEnv>, mode: Mode, i: nat)
    requires s.turns == [] && !s.finished
    ensures var turns := Run(s, script, mode).turns; i < |turns| ==> EndsExactly(s, script, mode, turns, i)
  {
    var turns := Run(s, script, mode).turns;
    TurnTaken(s, script, mode, i);
    if i < |turns| {
      TakenEndsExactly(s, script, mode, i, turns[i]);
      GoesOnBefore(s, script, mode, i + 1);
      if i + 1 < |script| {
        AnswerIsTaken(s, script, mode, i + 1);
      }
    }
  }

  /** The last of these turns must end the run. */
  ghost predicate LastMustEnd(s: Loop, script: seq<TurnEnv>, mode: Mode, turns: seq<Turn>) {
    turns != [] &&
    var last := |turns| - 1;
    last < |script| && MustEnd(Run(s, script[..last], mode), script[last], turns[last])
  }

  lemma FirstIsTaken(s: Loop, script: seq<TurnEnv>, mode: Mode)
    requires s.turns == [] && !s.finished
    ensures script != [] ==> Run(s, script, mode).turns != []
  {
    if script != [] {
      assert script[..0] == [];
      AnswerIsTaken(s, script, mode, 0);
    }
  }

  lemma SameEnd(s: Loop, script: seq<TurnEnv>, k: nat, mode: Mode)
    requires k <= |script| && (k == |script| || Run(s, script[..k], mode).finished)
    ensures Run(s, script, mode).finished == Run(s, script[..k], mode).finished
  {
    if k == |script| {
      assert script[..k] == script;
    } else {
      RunIgnoresRest(s, script, k, mode);
    }
  }

  lemma LastEndsExactly(s: Loop, script: seq<TurnEnv>, mode: Mode, turns: seq<Turn>)
    requires turns != [] && EndsExactly(s, script, mode, turns, |turns| - 1)
    ensures Run(s, script, mode).finished <==> LastMustEnd(s, script, mode, turns)
  {
    SameEnd(s, script, |turns|, mode);
  }

  lemma FinishedExactly(s: Loop, script: seq<TurnEnv>, mode: Mode)
    requires s.turns == [] && !s.finished
    ensures Run(s, script, mode).finished <==> LastMustEnd(s, script, mode, Run(s, script, mode).turns)
  {
    FirstIsTaken(s, script, mode);
    if script != [] {
      var turns := Run(s, script, mode).turns;
      TurnEndsExactly(s, script, mode, |turns| - 1);
      LastEndsExactly(s, script, mode, turns);
    }
  }

  /**
   * When a run goes on, for every turn of every run: it ends right after the turn exactly if the response failed, a
   * hook stopped it, or the turn had no continuing batch and both queues, arrivals included, were empty; otherwise
   * there is a next turn as soon as there is an answer for it. So a run has finished exactly if its last turn ends it.
   */
  lemma RunGoesOnExactly(s: Loop, script: seq<TurnEnv>, mode: Mode, i: nat)
    requires s.turns == [] && !s.finished
    ensures var r := Run(s, script, mode);
            (i < |r.turns| ==> EndsExactly(s, script, mode, r.turns, i)) &&
            (script != [] ==> r.turns != []) &&
            (r.finished <==> LastMustEnd(s, script, mode, r.turns))
  {
    TurnEndsExactly(s, script, mode, i);
    FirstIsTaken(s, script, mode);
    FinishedExactly(s, script, mode);
  }

  // ---------- Turn bound ----------

  function Continuing(turns: seq<Turn>): nat {
    if turns == [] then 0 else Continuing(turns[..|turns| - 1]) + if turns[|turns| - 1].more then 1 else 0
  }

  function InjectedCount(turns: seq<Turn>): nat {
    if turns == [] then 0 else InjectedCount(turns[..|turns| - 1]) + |turns[|turns| - 1].injected|
  }

  lemma {:induction false} InjectedCountSplits(turns: seq<Turn>)
    ensures InjectedCount(turns) == |Injected(turns, Steering)| + |Injected(turns, FollowUp)|
  {
    if turns != [] {
      InjectedCountSplits(turns[..|turns| - 1]);
    }
  }

  /**
   * The turns so far, and the one a running loop is about to take, are paid for by continuing batches and drained
   * messages.
   */
  predicate Paid(s: Loop) {
    && |s.turns| <= 1 + Continuing(s.turns) + InjectedCount(s.turns)
    && (!s.finished && s.turns != [] ==> |s.turns| <= Continuing(s.turns) + InjectedCount(s.turns) + |s.pending|)
  }

  lemma StepPaid(s: Loop, env: TurnEnv, mode: Mode)
    requires Paid(s) && !s.finished
    ensures Paid(Step(s, env, mode))
  {
    StepTrace(s, env, mode);
    var t, s' := RunTurn(s, env, mode), Step(s, env, mode);
    assert t.turns[..|s.turns|] == s.turns;
    if !s'.finished {
      assert t.more || s'.pending != [];
    }
  }

  /** Turns after the first number at most the continuing tool batches plus the injected messages. */
  lemma TurnBound(s: Loop, script: seq<TurnEnv>, mode: Mode)
    requires s.turns == [] && !s.finished
    ensures Paid(Run(s, script, mode))
  {
    var p := (r: Loop, done: seq<TurnEnv>) => Paid(r);
    forall r, done, env | p(r, done) ensures p(Next(mode)(r, env), done + [env]) {
      if !r.finished {
        StepPaid(r, env, mode);
      }
    }
    RunInduction(s, script, mode, p);
  }

  lemma QueueSizes(s: Loop, script: seq<TurnEnv>, mode: Mode)
    requires s.turns == [] && !s.finished
    ensures var r := Run(s, script, mode);
            UsesScript(r, script) &&
            InjectedCount(r.turns) + |r.pending| + |r.steering| + |r.followUp| ==
            |s.pending| + |s.steering| + |s.followUp|
              + |Arrivals(script[..|r.turns|], Steering)| + |Arrivals(script[..|r.turns|], FollowUp)|
  {
    RunConservesQueue(s, script, mode, Steering);
    RunConservesQueue(s, script, mode, FollowUp);
    InjectedCountSplits(Run(s, script, mode).turns);
  }

  /**
   * Termination: a run that has not ended has been offered no more turns than its continuing batches and
   * all messages ever queued for it can pay for.
   */
  lemma FiniteWorkTerminates(s: Loop, script: seq<TurnEnv>, mode: Mode)
    requires s.turns == [] && !s.finished
    ensures var r := Run(s, script, mode);
            r.finished ||
            |script| <= Continuing(r.turns) + |s.pending| + |s.steering| + |s.followUp|
                        + |Arrivals(script, Steering)| + |Arrivals(script, FollowUp)|
  {
    TurnBound(s, script, mode);
    QueueSizes(s, script, mode);
    assert script[..|script|] == script;
  }
}
