/** Run lifecycle when anything may throw: at most one run, and every exit leaves the agent idle and clean. */
module Lifecycle {
  import opened Options
  import opened AgentTypes
  import opened Sequences
  import opened AgentState
  import opened ToolBatch
  import opened BatchTheorems
  import opened BatchProtocol
  import opened TraceShape

  /** Where one `runWithLifecycle` activation stands between two awaits; `Finishing` has only its `finally` left. */
  datatype Phase = Executing | Handling(failure: Assistant, done: nat) | Finishing

  /** `activations` are the calls of `runWithLifecycle` that have been let in and have not returned. */
  datatype Life = Life(view: View, isStreaming: bool, activeRun: Option<nat>, activations: map<nat, Phase>)

  /**
   * One uninterrupted piece of work. If a listener throws on an emitted event, `caught` is the message the
   * failure handler will report.
   */
  datatype Move =
    | Start(id: nat)                              // prompt or continue reaches runWithLifecycle
    | Emit(id: nat, event: Event, caught: Option<Assistant>)   // the executor emits
    | Throw(id: nat, failure: Assistant)          // the executor throws by itself
    | Return(id: nat)                             // the executor returns
    | Report(id: nat, throws: bool)               // the failure handler emits its next event
    | Finish(id: nat)                             // the finally clause
    | Late(event: Event)                          // a tool that outlived its batch still emits

  function FailureEvents(failure: Assistant): seq<Event> {
    var m := FromAssistant(failure);
    [MessageStart(m), MessageEnd(m), TurnEnd(m, []), AgentEnd([m])]
  }

  /** `finishRun`: clears what the run owned, whoever calls it. */
  function Finished(l: Life, id: nat): Life {
    Life(l.view.(streaming := None, pending := {}), false, None, l.activations - {id})
  }

  predicate Enabled(l: Life, m: Move) {
    match m
    case Start(id) => id !in l.activations
    case Emit(id, _, _) => id in l.activations && l.activations[id].Executing?
    case Throw(id, _) => id in l.activations && l.activations[id].Executing?
    case Return(id) => id in l.activations && l.activations[id].Executing?
    case Report(id, _) => id in l.activations && l.activations[id].Handling? && l.activations[id].done < 4
    case Finish(id) => id in l.activations && l.activations[id].Finishing?
    case Late(event) => event.ToolUpdate? || event.ToolEnd?
  }

  function Next(l: Life, m: Move): Life
    requires Enabled(l, m)
  {
    match m
    case Start(id) =>
      // A second run is refused before it touches anything.
      if l.activeRun.Some? then l
      else Life(l.view.(streaming := None, errorMessage := None), true, Some(id), l.activations[id := Executing])
    case Emit(id, event, caught) =>
      // The state is reduced before the listeners run.
      var l' := l.(view := Reduce(l.view, event));
      if caught.Some? then l'.(activations := l.activations[id := Handling(caught.value, 0)]) else l'
    case Throw(id, failure) => l.(activations := l.activations[id := Handling(failure, 0)])
    case Return(id) => l.(activations := l.activations[id := Finishing])
    case Report(id, throws) =>
      var Handling(failure, done) := l.activations[id];
      var l' := l.(view := Reduce(l.view, FailureEvents(failure)[done]));
      l'.(activations := l.activations[id := if throws || done == 3 then Finishing else Handling(failure, done + 1)])
    case Finish(id) => Finished(l, id)
    case Late(event) => l.(view := Reduce(l.view, event))
  }

  function FreshLife(messages: seq<Message>): Life {
    Life(View(messages, None, {}, None), false, None, map[])
  }

  /** The state after any sequence of moves; a move that is not possible does nothing. */
  function After(l: Life, moves: seq<Move>): Life {
    if moves == [] then l
    else
      var before, last := After(l, moves[..|moves| - 1]), moves[|moves| - 1];
      if Enabled(before, last) then Next(before, last) else before
  }

  /** One slot, at most one activation, and an idle agent shows nothing of any run. */
  ghost predicate Orderly(l: Life) {
    && l.activations.Keys == (if l.activeRun.Some? then {l.activeRun.value} else {})
    && l.isStreaming == l.activeRun.Some?
    && (l.activeRun.None? ==> l.view.streaming.None? && l.view.pending == {})
    && (forall id :: id in l.activations && l.activations[id].Handling? ==> l.activations[id].done < 4)
  }

  /** A run is let in exactly if none is active; one that is refused leaves no trace. */
  lemma StartsExactly(l: Life, id: nat)
    requires Orderly(l) && Enabled(l, Start(id))
    ensures if l.activeRun.None?
            then Next(l, Start(id)).activeRun == Some(id) && Next(l, Start(id)).isStreaming &&
                 Next(l, Start(id)).activations == map[id := Executing] &&
                 Next(l, Start(id)).view.errorMessage.None?
            else Next(l, Start(id)) == l
  {
    assert l.activeRun.None? ==> l.activations == map[];
  }

  lemma NextIsOrderly(l: Life, m: Move)
    requires Orderly(l) && Enabled(l, m)
    ensures Orderly(Next(l, m))
  {
    match m {
      case Start(id) =>
      case Late(event) =>
      case Emit(id, _, _) => assert l.activations.Keys == {id};
      case Throw(id, _) => assert l.activations.Keys == {id};
      case Return(id) => assert l.activations.Keys == {id};
      case Report(id, _) => assert l.activations.Keys == {id};
      case Finish(id) => assert l.activations.Keys == {id};
    }
  }

  /** Under every interleaving of runs, failures and late tool events. */
  lemma {:induction false} AlwaysOrderly(messages: seq<Message>, moves: seq<Move>)
    ensures var l := After(FreshLife(messages), moves); Orderly(l) && |l.activations| <= 1
  {
    if moves != [] {
      var before, last := After(FreshLife(messages), moves[..|moves| - 1]), moves[|moves| - 1];
      AlwaysOrderly(messages, moves[..|moves| - 1]);
      if Enabled(before, last) {
        NextIsOrderly(before, last);
        var l := Next(before, last);
        assert |l.activations| == |l.activations.Keys|;
      }
    }
  }

  /** However an activation ends, nothing of it is left in the state, and the agent can start again. */
  lemma ExitsAreClean(l: Life, m: Move, id: nat)
    requires Orderly(l) && Enabled(l, m) && id in l.activations && id !in Next(l, m).activations
    ensures var l' := Next(l, m);
            l'.activeRun.None? && !l'.isStreaming && l'.view.streaming.None? && l'.view.pending == {} &&
              l'.activations == map[]
    ensures m == Finish(id)
  {
    NextIsOrderly(l, m);
    assert Next(l, m).activations.Keys == {} ==> Next(l, m).activations == map[];
  }

  lemma MovesExtend(messages: seq<Message>, moves: seq<Move>, k: nat)
    requires k < |moves|
    ensures var before := After(FreshLife(messages), moves[..k]);
            After(FreshLife(messages), moves[..k + 1]) ==
              if Enabled(before, moves[k]) then Next(before, moves[k]) else before
  {
    assert moves[..k + 1][..k] == moves[..k];
  }

  /** Over whole histories: at whatever move an activation is gone, the agent is idle and clean. */
  lemma EveryExitIsClean(messages: seq<Message>, moves: seq<Move>, k: nat, id: nat)
    requires k < |moves| && id in After(FreshLife(messages), moves[..k]).activations
    requires id !in After(FreshLife(messages), moves[..k + 1]).activations
    ensures var l := After(FreshLife(messages), moves[..k + 1]);
            l.activeRun.None? && !l.isStreaming && l.view.streaming.None? && l.view.pending == {} &&
              l.activations == map[]
    ensures moves[k] == Finish(id)
  {
    AlwaysOrderly(messages, moves[..k]);
    MovesExtend(messages, moves, k);
    ExitsAreClean(After(FreshLife(messages), moves[..k]), moves[k], id);
  }

  /** A caught error is reported in at most four emissions, after which only the `finally` clause is left. */
  lemma FailureIsHandled(l: Life, id: nat, throws: seq<bool>)
    requires Orderly(l) && id in l.activations && l.activations[id].Handling?
    requires |throws| == 4 - l.activations[id].done
    ensures exists n :: 0 < n <= |throws| && ReportsFinish(l, id, throws[..n])
    decreases |throws|
  {
    var m := Report(id, throws[0]);
    var l' := Next(l, m);
    NextIsOrderly(l, m);
    if l'.activations[id].Handling? {
      FailureIsHandled(l', id, throws[1..]);
      var n :| 0 < n <= |throws[1..]| && ReportsFinish(l', id, throws[1..][..n]);
      assert throws[..n + 1][1..] == throws[1..][..n];
      assert ReportsFinish(l, id, throws[..n + 1]);
    } else {
      assert throws[..1][1..] == [];
      assert ReportsFinish(l, id, throws[..1]);
    }
  }

  /** These reports, one after the other, bring the activation to its `finally` clause. */
  ghost predicate ReportsFinish(l: Life, id: nat, throws: seq<bool>)
    decreases |throws|
  {
    if throws == [] then Enabled(l, Finish(id))
    else Enabled(l, Report(id, throws[0])) && ReportsFinish(Next(l, Report(id, throws[0])), id, throws[1..])
  }

  /** The tools that can outlive a parallel batch have only updates and ends left to emit. */
  lemma SurvivorsNeverStart(tools: seq<Tool>, calls: seq<ToolCall>, envs: seq<CallEnv>, n: nat, schedule: seq<nat>)
    requires n <= |calls| == |envs|
    ensures forall e :: e in Race(Launches(tools, calls, envs, n), schedule) ==> Enabled(FreshLife([]), Late(e))
  {
    var ps, race := Processes(tools, calls, envs, n), Race(Launches(tools, calls, envs, n), schedule);
    RaceInterleavesProcesses(tools, calls, envs, n, schedule);
    InterleavingMembers(ps, race);
    forall e | e in race ensures e.ToolUpdate? || e.ToolEnd? {
      var j :| 0 <= j < |ps| && e in ps[j];
      LifeIsLife(tools, calls[j], envs[j]);
    }
  }

  predicate IsClean(v: View) {
    v.streaming.None? && v.pending == {}
  }

  /** The view is clean before, between and after these events. */
  ghost predicate StaysClean(v: View, events: seq<Event>) {
    forall k :: 0 <= k <= |events| ==> IsClean(ReduceAll(v, events[..k]))
  }

  predicate Refills(e: Event) {
    e.ToolStart? || e.MessageStart? || e.MessageUpdate?
  }

  /**
   * Late events are reduced before the agent notices that no run is active, so a clean view stays clean
   * exactly when none of them starts a tool or shows a message.
   */
  lemma {:induction false} LateEventsExact(v: View, events: seq<Event>)
    requires IsClean(v)
    ensures StaysClean(v, events) <==> forall k :: 0 <= k < |events| ==> !Refills(events[k])
  {
    if events == [] {
      assert events[..0] == [];
    } else {
      var n := |events| - 1;
      var init := events[..n];
      LateEventsExact(v, init);
      assert events[..n + 1] == events;
      assert forall k :: 0 <= k <= n ==> events[..k] == init[..k];
      if StaysClean(v, events) {
        assert IsClean(ReduceAll(v, events[..n + 1])) && IsClean(ReduceAll(v, events[..n]));
        forall k | 0 <= k <= n ensures IsClean(ReduceAll(v, init[..k])) {
          assert IsClean(ReduceAll(v, events[..k]));
        }
        assert StaysClean(v, init);
      } else if StaysClean(v, init) {
        assert IsClean(ReduceAll(v, init[..n]));
        assert init[..n] == init;
      } else {
        var k :| 0 <= k < n && Refills(init[k]);
        assert Refills(events[k]);
      }
    }
  }

  // ---------- The same lifecycle as code ----------

  /**
   * An event of a tool that outlived the parallel batch of this or of an earlier run: see SurvivorsNeverStart.
   * While some run is active such events are handed to listeners like any others.
   */
  type LateEvent = e: Event | e.ToolUpdate? || e.ToolEnd? witness ToolUpdate(ToolCall("", "", ""), "")

  /**
   * One emission of an executor: late events before it, the event, and the failure to report if a listener throws on
   * it.
   */
  datatype Emission = Emission(late: seq<LateEvent>, event: Event, caught: Option<Assistant>)

  /**
   * Late events of the rest of a run: before each failure event, and between its last event and its `finally` clause.
   */
  datatype Gaps = Gaps(before: seq<seq<LateEvent>>, atEnd: seq<LateEvent>)

  /** What listeners are handed while an executor runs: all it emits, or up to the first event one of them throws on. */
  function Delivered(executor: seq<Emission>): seq<Event> {
    if executor == [] then []
    else executor[0].late + ([executor[0].event] + if executor[0].caught.Some? then [] else Delivered(executor[1..]))
  }

  function Caught(executor: seq<Emission>, own: Option<Assistant>): Option<Assistant> {
    if executor == [] then own
    else if executor[0].caught.Some? then executor[0].caught
    else Caught(executor[1..], own)
  }

  /** The failure events from number k on, up to and including the first one a listener throws on. */
  function ReportsFrom(failure: Assistant, throws: seq<bool>, before: seq<seq<LateEvent>>, k: nat): seq<Event>
    requires |throws| == |before| == 4 && k < 4
    decreases 4 - k
  {
    before[k] +
      ([FailureEvents(failure)[k]] + if throws[k] || k == 3 then [] else ReportsFrom(failure, throws, before, k + 1))
  }

  function FailureReports(caught: Option<Assistant>, throws: seq<bool>, gaps: Gaps): seq<Event>
    requires |throws| == |gaps.before| == 4
  {
    if caught.Some? then ReportsFrom(caught.value, throws, gaps.before, 0) else []
  }

  /** All that listeners are handed while one run is active, in order. */
  function EmittedTrace(executor: seq<Emission>, own: Option<Assistant>, throws: seq<bool>, gaps: Gaps): seq<Event>
    requires |throws| == |gaps.before| == 4
  {
    Delivered(executor) + FailureReports(Caught(executor, own), throws, gaps) + gaps.atEnd
  }

  /** All that these emissions put before listeners if none of them throws. */
  function Said(executor: seq<Emission>): seq<Event> {
    if executor == [] then [] else executor[0].late + ([executor[0].event] + Said(executor[1..]))
  }

  /** An executor is heard up to the first event on which a listener throws, and that, or its own throw, is caught. */
  lemma {:induction false} DeliveredExactly(executor: seq<Emission>, own: Option<Assistant>) returns (n: nat)
    ensures n <= |executor| && forall i :: 0 <= i < n ==> executor[i].caught.None?
    ensures if n == |executor| then Caught(executor, own) == own && Delivered(executor) == Said(executor)
            else executor[n].caught.Some? && Caught(executor, own) == executor[n].caught &&
                 Delivered(executor) == Said(executor[..n + 1])
  {
    n := 0;
    if executor != [] {
      if executor[0].caught.Some? {
        assert executor[..1][1..] == [];
      } else {
        n := DeliveredExactly(executor[1..], own);
        n := n + 1;
        if n < |executor| {
          assert executor[..n + 1][1..] == executor[1..][..n];
        }
      }
    }
  }

  // ---------- agent_end on the failure path ----------

  function Ends(trace: seq<Event>): nat {
    if trace == [] then 0 else Ends(trace[..|trace| - 1]) + if trace[|trace| - 1].AgentEnd? then 1 else 0
  }

  /** As documented: agent_end is the last event of a run, and comes once. */
  predicate EndsInAgentEnd(trace: seq<Event>) {
    Ends(trace) == 1 && trace != [] && trace[|trace| - 1].AgentEnd?
  }

  lemma {:induction false} EndsConcat(a: seq<Event>, b: seq<Event>)
    ensures Ends(a + b) == Ends(a) + Ends(b)
  {
    if b == [] {
      assert a + b == a;
    } else {
      assert (a + b)[..|a + b| - 1] == a + b[..|b| - 1];
      EndsConcat(a, b[..|b| - 1]);
    }
  }

  lemma EndsOne(e: Event)
    ensures Ends([e]) == if e.AgentEnd? then 1 else 0
  {
    assert [e][..0] == [];
  }

  lemma {:induction false} NothingLateEnds(late: seq<LateEvent>)
    ensures Ends(late) == 0
  {
    if late != [] {
      NothingLateEnds(late[..|late| - 1]);
    }
  }

  /** Whether the failure handler gets as far as its own agent_end. */
  predicate ReportsEnd(caught: Option<Assistant>, throws: seq<bool>)
    requires |throws| == 4
  {
    caught.Some? && !throws[0] && !throws[1] && !throws[2]
  }

  /** No listener throws on the failure events from number k on, save perhaps the last. */
  predicate FullFrom(throws: seq<bool>, k: nat)
    requires |throws| == 4 && k < 4
    decreases 4 - k
  {
    k == 3 || (!throws[k] && FullFrom(throws, k + 1))
  }

  lemma EndsAfter(late: seq<LateEvent>, event: Event, rest: seq<Event>)
    ensures var all := late + ([event] + rest);
            Ends(all) == (if event.AgentEnd? then 1 else 0) + Ends(rest) && all != [] &&
            all[|all| - 1] == if rest == [] then event else rest[|rest| - 1]
  {
    NothingLateEnds(late);
    EndsOne(event);
    EndsConcat([event], rest);
    EndsConcat(late, [event] + rest);
  }

  /** A failure reported in full ends in its agent_end, any other has none. */
  predicate EndsIf(reports: seq<Event>, full: bool) {
    && Ends(reports) == (if full then 1 else 0)
    && reports != [] && (reports[|reports| - 1].AgentEnd? <==> full)
  }

  lemma {:induction false} EndsOfReportsFrom(failure: Assistant, throws: seq<bool>, before: seq<seq<LateEvent>>, k: nat)
    requires |throws| == |before| == 4 && k < 4
    ensures EndsIf(ReportsFrom(failure, throws, before, k), FullFrom(throws, k))
    decreases 4 - k
  {
    var event := FailureEvents(failure)[k];
    if throws[k] || k == 3 {
      EndsAfter(before[k], event, []);
    } else {
      EndsOfReportsFrom(failure, throws, before, k + 1);
      EndsAfter(before[k], event, ReportsFrom(failure, throws, before, k + 1));
    }
  }

  lemma EndsOfReports(caught: Option<Assistant>, throws: seq<bool>, gaps: Gaps)
    requires |throws| == |gaps.before| == 4
    ensures var reports := FailureReports(caught, throws, gaps);
            Ends(reports) == (if ReportsEnd(caught, throws) then 1 else 0) &&
            (caught.Some? ==> reports != [] && (reports[|reports| - 1].AgentEnd? <==> ReportsEnd(caught, throws)))
  {
    if caught.Some? {
      EndsOfReportsFrom(caught.value, throws, gaps.before, 0);
      assert FullFrom(throws, 2) <==> !throws[2];
      assert FullFrom(throws, 1) <==> !throws[1] && !throws[2];
    }
  }

  lemma EndsOfRun(executor: seq<Emission>, own: Option<Assistant>, throws: seq<bool>, gaps: Gaps)
    requires |throws| == |gaps.before| == 4
    ensures Ends(EmittedTrace(executor, own, throws, gaps)) ==
            Ends(Delivered(executor)) + if ReportsEnd(Caught(executor, own), throws) then 1 else 0
  {
    var delivered, reports := Delivered(executor), FailureReports(Caught(executor, own), throws, gaps);
    EndsConcat(delivered, reports);
    EndsConcat(delivered + reports, gaps.atEnd);
    EndsOfReports(Caught(executor, own), throws, gaps);
    NothingLateEnds(gaps.atEnd);
  }

  /**
   * A run whose executor has emitted agent_end at most once emits it twice if and only if it was delivered, then
   * something threw, and no listener threw on the first three reports of the failure; late events change nothing.
   */
  lemma AgentEndTwiceExactly(executor: seq<Emission>, own: Option<Assistant>, throws: seq<bool>, gaps: Gaps)
    requires |throws| == |gaps.before| == 4 && Ends(Delivered(executor)) <= 1
    ensures Ends(EmittedTrace(executor, own, throws, gaps)) == 2 <==>
            Ends(Delivered(executor)) == 1 && ReportsEnd(Caught(executor, own), throws)
  {
    EndsOfRun(executor, own, throws, gaps);
  }

  /**
   * The documented rule holds of a run if and only if no surviving tool is heard between its last event and its
   * `finally` clause, and agent_end was delivered once and last with nothing thrown, or was not delivered and the
   * failure was reported in full.
   */
  lemma DocumentedEndExactly(executor: seq<Emission>, own: Option<Assistant>, throws: seq<bool>, gaps: Gaps)
    requires |throws| == |gaps.before| == 4
    ensures EndsInAgentEnd(EmittedTrace(executor, own, throws, gaps)) <==>
            gaps.atEnd == [] &&
            if Caught(executor, own).None? then EndsInAgentEnd(Delivered(executor))
            else Ends(Delivered(executor)) == 0 && ReportsEnd(Caught(executor, own), throws)
  {
    var caught, trace := Caught(executor, own), EmittedTrace(executor, own, throws, gaps);
    EndsOfRun(executor, own, throws, gaps);
    EndsOfReports(caught, throws, gaps);
    if gaps.atEnd != [] {
      assert trace[|trace| - 1] == gaps.atEnd[|gaps.atEnd| - 1];
    } else if caught.None? {
      assert trace == Delivered(executor);
    } else {
      var reports := FailureReports(caught, throws, gaps);
      assert trace == Delivered(executor) + reports;
      assert trace[|trace| - 1] == reports[|reports| - 1];
    }
  }

  const NO_GAPS: Gaps := Gaps([[], [], [], []], [])

  const NO_THROWS: seq<bool> := [false, false, false, false]

  /** A run with two agent_ends: the loop ends normally, a listener throws on its agent_end, nobody on the reports. */
  lemma AgentEndTwice(failure: Assistant)
    ensures var executor := [Emission([], AgentStart, None), Emission([], AgentEnd([]), Some(failure))];
            var trace := EmittedTrace(executor, None, NO_THROWS, NO_GAPS);
            Ends(trace) == 2 && !EndsInAgentEnd(trace)
  {
    var executor := [Emission([], AgentStart, None), Emission([], AgentEnd([]), Some(failure))];
    assert executor[1..] == [Emission([], AgentEnd([]), Some(failure))];
    assert Delivered(executor) == [AgentStart] + [AgentEnd([])];
    EndsOne(AgentStart);
    EndsOne(AgentEnd([]));
    EndsConcat([AgentStart], [AgentEnd([])]);
    AgentEndTwiceExactly(executor, None, NO_THROWS, NO_GAPS);
  }

  /** A parallel batch of two tools starts, its first tool ends, and a listener throws on that. */
  function ThrownBatch(a: ToolCall, b: ToolCall, result: ToolResult, failure: Assistant): seq<Emission> {
    [Emission([], AgentStart, None), Emission([], ToolStart(a), None), Emission([], ToolStart(b), None),
     Emission([], ToolEnd(a, result, false), Some(failure))]
  }

  lemma ThrownBatchIsCaught(a: ToolCall, b: ToolCall, result: ToolResult, failure: Assistant)
    ensures Caught(ThrownBatch(a, b, result, failure), None) == Some(failure)
  {
    var executor := ThrownBatch(a, b, result, failure);
    assert Caught(executor[3..], None) == Some(failure);
    assert executor[2..][1..] == executor[3..] && executor[1..][1..] == executor[2..];
    assert Caught(executor[2..], None) == Caught(executor[3..], None);
    assert Caught(executor[1..], None) == Caught(executor[2..], None);
  }

  /**
   * A run whose one agent_end is not last: a listener throws on the end of the first tool of a parallel batch, the
   * failure is reported in full, and the second tool reports while listeners still hear the agent_end.
   */
  lemma SurvivorSpeaksLast(a: ToolCall, b: ToolCall, result: ToolResult, failure: Assistant)
    ensures var gaps := NO_GAPS.(atEnd := [ToolUpdate(b, "")]);
            var trace := EmittedTrace(ThrownBatch(a, b, result, failure), None, NO_THROWS, gaps);
            Ends(trace) == 1 && !EndsInAgentEnd(trace)
  {
    var executor, gaps := ThrownBatch(a, b, result, failure), NO_GAPS.(atEnd := [ToolUpdate(b, "")]);
    ThrownBatchIsCaught(a, b, result, failure);
    NoneEndsUnlessEmitted(executor);
    EndsOfRun(executor, None, NO_THROWS, gaps);
    DocumentedEndExactly(executor, None, NO_THROWS, gaps);
  }

  /** The same after a normal run: a tool that outlived an earlier one is heard between agent_end and `finally`. */
  lemma EarlierSurvivorSpeaksLast(b: ToolCall, result: ToolResult)
    ensures var executor := [Emission([], AgentEnd([]), None)];
            !EndsInAgentEnd(EmittedTrace(executor, None, NO_THROWS, NO_GAPS.(atEnd := [ToolEnd(b, result, false)])))
  {
    var executor := [Emission([], AgentEnd([]), None)];
    DocumentedEndExactly(executor, None, NO_THROWS, NO_GAPS.(atEnd := [ToolEnd(b, result, false)]));
  }

  lemma {:induction false} NoneEndsUnlessEmitted(executor: seq<Emission>)
    requires forall i :: 0 <= i < |executor| ==> !executor[i].event.AgentEnd?
    ensures Ends(Delivered(executor)) == 0
  {
    if executor != [] {
      var first := executor[0];
      var rest := if first.caught.Some? then [] else Delivered(executor[1..]);
      NoneEndsUnlessEmitted(executor[1..]);
      NothingLateEnds(first.late);
      EndsOne(first.event);
      EndsConcat([first.event], rest);
      EndsConcat(first.late, [first.event] + rest);
    }
  }

  // ---------- What a failure shows ----------

  /** The failure is a whole message, a turn without replies, and an agent_end that carries what was completed. */
  lemma FailureIsOneTurn(failure: Assistant)
    ensures var events := FailureEvents(failure);
            |events| == 4 && IsMessage(events[..2]) && events[2] == TurnEnd(FromAssistant(failure), []) &&
            events[3] == AgentEnd(Completed(events[..2])) && Completed(events[..2]) == [FromAssistant(failure)]
  {
    var m := FromAssistant(failure);
    assert FailureEvents(failure)[..2] == Pair(m);
    assert Pair(m)[..1] == [MessageStart(m)];
    CompletedPair(m);
  }

  lemma {:induction false} LateReportsNoError(v: View, late: seq<LateEvent>)
    ensures ReduceAll(v, late).errorMessage == v.errorMessage
  {
    if late != [] {
      LateReportsNoError(v, late[..|late| - 1]);
    }
  }

  /** Late events and then one event: the error shown changes only by a turn_end that carries one. */
  lemma PartShowsError(v: View, late: seq<LateEvent>, event: Event, rest: seq<Event>) returns (after: View)
    ensures ReduceAll(v, late + ([event] + rest)) == ReduceAll(after, rest)
    ensures after.errorMessage == if ReportsError(event) then event.message.assistant.errorMessage else v.errorMessage
  {
    after := ReduceAll(v, late + [event]);
    LateReportsNoError(v, late);
    ReduceOneMore(v, late, event);
    Assoc(late, [event], rest);
    ReduceAllConcat(v, late + [event], rest);
    ReducedError(ReduceAll(v, late), event);
  }

  /** From report k on the failure handler gets to its turn_end. */
  predicate ReachesTurnEnd(throws: seq<bool>, k: nat)
    requires |throws| == 4
    decreases 4 - k
  {
    k == 2 || (k < 2 && !throws[k] && ReachesTurnEnd(throws, k + 1))
  }

  /** Handling a failure shows its error once its turn_end is reached, and otherwise leaves the error shown before. */
  lemma {:induction false} ReportsShowError(
    v: View, failure: Assistant, throws: seq<bool>, before: seq<seq<LateEvent>>, k: nat)
    requires |throws| == |before| == 4 && k < 4
    ensures ReduceAll(v, ReportsFrom(failure, throws, before, k)).errorMessage ==
            if HasError(failure) && ReachesTurnEnd(throws, k) then failure.errorMessage else v.errorMessage
    decreases 4 - k
  {
    var event := FailureEvents(failure)[k];
    if throws[k] || k == 3 {
      var after := PartShowsError(v, before[k], event, []);
    } else {
      var rest := ReportsFrom(failure, throws, before, k + 1);
      var after := PartShowsError(v, before[k], event, rest);
      ReportsShowError(after, failure, throws, before, k + 1);
    }
  }

  lemma CaughtShowsError(v: View, caught: Option<Assistant>, throws: seq<bool>, gaps: Gaps)
    requires |throws| == |gaps.before| == 4
    ensures ReduceAll(v, FailureReports(caught, throws, gaps)).errorMessage ==
            if caught.Some? && HasError(caught.value) && !throws[0] && !throws[1] then caught.value.errorMessage
            else v.errorMessage
  {
    if caught.Some? {
      ReportsShowError(v, caught.value, throws, gaps.before, 0);
      assert ReachesTurnEnd(throws, 1) <==> !throws[1];
    }
  }

  /** After a failed run the agent shows the error of the failure, unless one of the first two reports was thrown on. */
  lemma FailureShowsError(
    v: View, executor: seq<Emission>, own: Option<Assistant>, throws: seq<bool>, gaps: Gaps)
    requires |throws| == |gaps.before| == 4
    ensures var caught := Caught(executor, own);
            ReduceAll(v, EmittedTrace(executor, own, throws, gaps)).errorMessage ==
              if caught.Some? && HasError(caught.value) && !throws[0] && !throws[1] then caught.value.errorMessage
              else ReduceAll(v, Delivered(executor)).errorMessage
  {
    var delivered, reports := Delivered(executor), FailureReports(Caught(executor, own), throws, gaps);
    ReduceAllConcat(v, delivered, reports);
    ReduceAllConcat(v, delivered + reports, gaps.atEnd);
    LateReportsNoError(ReduceAll(v, delivered + reports), gaps.atEnd);
    CaughtShowsError(ReduceAll(v, delivered), Caught(executor, own), throws, gaps);
  }

  // ---------- The code ----------

  /** What has been handed to listeners, and what emission i and the later ones still add, make up what is delivered. */
  ghost predicate Seen(executor: seq<Emission>, own: Option<Assistant>, i: nat, seen: seq<Event>)
    requires i <= |executor|
  {
    seen + Delivered(executor[i..]) == Delivered(executor) && Caught(executor[i..], own) == Caught(executor, own)
  }

  lemma SeenNext(executor: seq<Emission>, own: Option<Assistant>, i: nat, seen: seq<Event>)
    requires i < |executor| && Seen(executor, own, i, seen)
    ensures var more := seen + (executor[i].late + [executor[i].event]);
            if executor[i].caught.Some? then more == Delivered(executor) && executor[i].caught == Caught(executor, own)
            else Seen(executor, own, i + 1, more)
  {
    var late, event := executor[i].late, executor[i].event;
    var rest := if executor[i].caught.Some? then [] else Delivered(executor[i + 1..]);
    assert executor[i..][1..] == executor[i + 1..];
    Assoc(late, [event], rest);
    Assoc(seen, late + [event], rest);
  }

  lemma SeenAll(executor: seq<Emission>, own: Option<Assistant>, seen: seq<Event>)
    requires Seen(executor, own, |executor|, seen)
    ensures seen == Delivered(executor) && own == Caught(executor, own)
  {
    assert executor[|executor|..] == [] && seen + [] == seen;
  }

  lemma PartCompletes(late: seq<LateEvent>, event: Event, rest: seq<Event>)
    ensures Completed(late + ([event] + rest)) == (if event.MessageEnd? then [event.message] else []) + Completed(rest)
  {
    ToolsCompleteNothing(late);
    CompletedOne(event);
    CompletedConcat([event], rest);
    CompletedConcat(late, [event] + rest);
  }

  lemma {:induction false} ReportsComplete(failure: Assistant, throws: seq<bool>, before: seq<seq<LateEvent>>, k: nat)
    requires |throws| == |before| == 4 && k < 4
    ensures Completed(ReportsFrom(failure, throws, before, k)) ==
            if k == 1 || (k == 0 && !throws[0]) then [FromAssistant(failure)] else []
    decreases 4 - k
  {
    var event := FailureEvents(failure)[k];
    if throws[k] || k == 3 {
      PartCompletes(before[k], event, []);
    } else {
      ReportsComplete(failure, throws, before, k + 1);
      PartCompletes(before[k], event, ReportsFrom(failure, throws, before, k + 1));
    }
  }

  /** A failed or finished run leaves in the transcript what was delivered, and its failure if that was shown. */
  lemma RunCompletes(executor: seq<Emission>, own: Option<Assistant>, throws: seq<bool>, gaps: Gaps)
    requires |throws| == |gaps.before| == 4
    ensures var caught := Caught(executor, own);
            Completed(EmittedTrace(executor, own, throws, gaps)) ==
              Completed(Delivered(executor)) + if caught.Some? && !throws[0] then [FromAssistant(caught.value)] else []
  {
    var caught, delivered := Caught(executor, own), Delivered(executor);
    var reports := FailureReports(caught, throws, gaps);
    CompletedConcat(delivered, reports);
    CompletedConcat(delivered + reports, gaps.atEnd);
    ToolsCompleteNothing(gaps.atEnd);
    if caught.Some? {
      ReportsComplete(caught.value, throws, gaps.before, 0);
    }
  }

  class Runs {
    const state: State
    var activeRun: bool
    ghost var emitted: seq<Event>  // all events handed to listeners so far

    constructor (initial: seq<Message>)
      ensures fresh(state) && state.Value() == View(initial, None, {}, None)
      ensures !state.isStreaming && !activeRun && emitted == []
    {
      state := new State(initial);
      activeRun, emitted := false, [];
    }

    /**
     * `processEvents`: the state is reduced; then listeners, if a run is active, are handed the event and may throw.
     */
    method ProcessEvent(event: Event) returns (refused: bool)
      modifies this`emitted, state
      ensures state.Value() == Reduce(old(state.Value()), event) && state.isStreaming == old(state.isStreaming)
      ensures refused <==> !activeRun
      ensures emitted == old(emitted) + if refused then [] else [event]
    {
      state.ProcessEvent(event);
      if !activeRun {
        return true;
      }
      emitted := emitted + [event];
      refused := false;
    }

    /** Several events in a row, with a run active. */
    method ProcessAll(events: seq<Event>)
      requires activeRun
      modifies this`emitted, state
      ensures state.Value() == ReduceAll(old(state.Value()), events) && emitted == old(emitted) + events
    {
      for i := 0 to |events|
        invariant state.Value() == ReduceAll(old(state.Value()), events[..i]) && emitted == old(emitted) + events[..i]
      {
        var refused := ProcessEvent(events[i]);
        assert events[..i + 1][..i] == events[..i];
      }
      assert events[..|events|] == events;
    }

    /**
     * Emits the four failure events until a listener throws, late events in between; `throws` says on which it would.
     */
    method HandleRunFailure(failure: Assistant, throws: seq<bool>, before: seq<seq<LateEvent>>)
      requires |throws| == |before| == 4 && activeRun
      modifies this`emitted, state
      ensures emitted == old(emitted) + ReportsFrom(failure, throws, before, 0)
      ensures state.Value() == ReduceAll(old(state.Value()), ReportsFrom(failure, throws, before, 0))
    {
      var k := 0;
      ghost var view, all := state.Value(), ReportsFrom(failure, throws, before, 0);
      ghost var seen: seq<Event> := [];
      while true
        invariant k < 4 && emitted == old(emitted) + seen && state.Value() == ReduceAll(view, seen)
        invariant seen + ReportsFrom(failure, throws, before, k) == all
        decreases 4 - k
      {
        var events := before[k] + [FailureEvents(failure)[k]];
        ReduceAllConcat(view, seen, events);
        Assoc(old(emitted), seen, events);
        ProcessAll(events);
        ReportsNext(failure, throws, before, k, seen);
        seen := seen + events;
        if throws[k] || k == 3 {
          return;
        }
        k := k + 1;
      }
    }

    /** The executor up to its end: by a listener that threw, by throwing itself, or normally. */
    method Execute(executor: seq<Emission>, own: Option<Assistant>) returns (caught: Option<Assistant>)
      requires activeRun
      modifies this`emitted, state
      ensures caught == Caught(executor, own)
      ensures emitted == old(emitted) + Delivered(executor)
      ensures state.Value() == ReduceAll(old(state.Value()), Delivered(executor))
    {
      caught := None;
      ghost var view := state.Value();
      ghost var seen: seq<Event> := [];
      assert executor[0..] == executor && [] + Delivered(executor) == Delivered(executor);
      for i := 0 to |executor|
        invariant emitted == old(emitted) + seen && state.Value() == ReduceAll(view, seen)
        invariant Seen(executor, own, i, seen)
      {
        var events := executor[i].late + [executor[i].event];
        SeenNext(executor, own, i, seen);
        ReduceAllConcat(view, seen, events);
        Assoc(old(emitted), seen, events);
        ProcessAll(events);
        seen := seen + events;
        if executor[i].caught.Some? {
          return executor[i].caught;
        }
      }
      SeenAll(executor, own, seen);
      return own;
    }

    /**
     * `runWithLifecycle` with an arbitrary executor: `own` is set if it ends by throwing. On every path the agent
     * ends idle and clean, and its state is the reduction of all that listeners were handed while the run was
     * active; so the transcript holds what was delivered and, unless its first report was thrown on, the failure.
     */
    method RunWithLifecycle(executor: seq<Emission>, own: Option<Assistant>, throws: seq<bool>, gaps: Gaps)
      returns (refused: bool)
      requires |throws| == |gaps.before| == 4
      modifies this, state
      ensures refused == old(activeRun)
      ensures refused ==>
              activeRun && state.isStreaming == old(state.isStreaming) && state.Value() == old(state.Value())
      ensures emitted == old(emitted) + if refused then [] else EmittedTrace(executor, own, throws, gaps)
      ensures !refused ==> !activeRun && !state.isStreaming && IsClean(state.Value())
      ensures !refused ==>
        var was := old(state.Value()).(streaming := None, errorMessage := None);
        state.Value() == ReduceAll(was, EmittedTrace(executor, own, throws, gaps)).(streaming := None, pending := {})
      ensures !refused ==>
        var caught := Caught(executor, own);
        state.messages == old(state.messages) + (Completed(Delivered(executor))
                          + if caught.Some? && !throws[0] then [FromAssistant(caught.value)] else [])
      ensures !refused ==>
        var caught := Caught(executor, own);
        caught.Some? && HasError(caught.value) && !throws[0] && !throws[1] ==>
          state.errorMessage == caught.value.errorMessage
    {
      if activeRun {
        return true;
      }
      activeRun := true;
      state.BeginRun();
      ghost var was, before := state.Value(), emitted;
      ghost var delivered, reports := Delivered(executor), FailureReports(Caught(executor, own), throws, gaps);
      var caught := Execute(executor, own);
      ReduceAllConcat(was, delivered, reports);
      Assoc(before, delivered, reports);
      if caught.Some? {
        HandleRunFailure(caught.value, throws, gaps.before);
      }
      ReduceAllConcat(was, delivered + reports, gaps.atEnd);
      Assoc(before, delivered + reports, gaps.atEnd);
      assert before + delivered + [] == before + delivered;
      ProcessAll(gaps.atEnd);
      RunCompletes(executor, own, throws, gaps);
      TranscriptFollowsTrace(was, EmittedTrace(executor, own, throws, gaps));
      FailureShowsError(was, executor, own, throws, gaps);
      state.EndRun();
      activeRun := false;
      refused := false;
    }
  }

  lemma ReportsNext(failure: Assistant, throws: seq<bool>, before: seq<seq<LateEvent>>, k: nat, seen: seq<Event>)
    requires |throws| == |before| == 4 && k < 4
    ensures var more := seen + (before[k] + [FailureEvents(failure)[k]]);
            seen + ReportsFrom(failure, throws, before, k) ==
              if throws[k] || k == 3 then more else more + ReportsFrom(failure, throws, before, k + 1)
  {
  }
}
