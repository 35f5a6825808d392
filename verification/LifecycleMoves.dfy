/** The two forms of the lifecycle agree: a run as code is a sequence of moves, and leaves the same state. */
module LifecycleMoves {
  import opened Options
  import opened AgentTypes
  import opened Sequences
  import opened AgentState
  import opened Lifecycle

  function LateMoves(late: seq<LateEvent>): seq<Move> {
    seq(|late|, i requires 0 <= i < |late| => Late(late[i]))
  }

  function EmitMoves(id: nat, executor: seq<Emission>): seq<Move> {
    if executor == [] then []
    else
      LateMoves(executor[0].late) +
      ([Emit(id, executor[0].event, executor[0].caught)]
       + if executor[0].caught.Some? then [] else EmitMoves(id, executor[1..]))
  }

  function ReportMoves(id: nat, throws: seq<bool>, before: seq<seq<LateEvent>>, k: nat): seq<Move>
    requires |throws| == |before| == 4 && k < 4
    decreases 4 - k
  {
    LateMoves(before[k]) +
    ([Report(id, throws[k])] + if throws[k] || k == 3 then [] else ReportMoves(id, throws, before, k + 1))
  }

  /** How an executor ends of which no emission was thrown on. */
  function ExitMoves(id: nat, executor: seq<Emission>, own: Option<Assistant>): seq<Move> {
    if Caught(executor, None).Some? then [] else if own.Some? then [Throw(id, own.value)] else [Return(id)]
  }

  /** The moves of one run. */
  function RunMoves(
    id: nat, executor: seq<Emission>, own: Option<Assistant>, throws: seq<bool>, gaps: Gaps): seq<Move>
    requires |throws| == |gaps.before| == 4
  {
    [Start(id)] + EmitMoves(id, executor) + ExitMoves(id, executor, own)
    + (if Caught(executor, own).Some? then ReportMoves(id, throws, gaps.before, 0) else [])
    + LateMoves(gaps.atEnd) + [Finish(id)]
  }

  lemma {:induction false} AfterConcat(l: Life, a: seq<Move>, b: seq<Move>)
    ensures After(l, a + b) == After(After(l, a), b)
  {
    if b == [] {
      assert a + b == a;
    } else {
      assert (a + b)[..|a + b| - 1] == a + b[..|b| - 1];
      AfterConcat(l, a, b[..|b| - 1]);
    }
  }

  lemma AfterOne(l: Life, m: Move)
    requires Enabled(l, m)
    ensures After(l, [m]) == Next(l, m)
  {
    assert [m][..0] == [];
    assert After(l, [m][..0]) == l;
  }

  lemma {:induction false} LateMovesReduce(l: Life, late: seq<LateEvent>)
    ensures After(l, LateMoves(late)) == l.(view := ReduceAll(l.view, late))
  {
    if late != [] {
      var init := late[..|late| - 1];
      LateMovesReduce(l, init);
      assert LateMoves(late)[..|late| - 1] == LateMoves(init);
    }
  }

  /** The life of the one run `id` with this view, at this phase. */
  function Alone(id: nat, view: View, phase: Phase): Life {
    Life(view, true, Some(id), map[id := phase])
  }

  lemma LateThenOne(id: nat, view: View, phase: Phase, late: seq<LateEvent>, m: Move, event: Event)
    requires Enabled(Alone(id, ReduceAll(view, late), phase), m)
    ensures After(Alone(id, view, phase), LateMoves(late) + [m]) == Next(Alone(id, ReduceAll(view, late), phase), m)
    ensures ReduceAll(view, late + [event]) == Reduce(ReduceAll(view, late), event)
  {
    LateMovesReduce(Alone(id, view, phase), late);
    ReduceOneMore(view, late, event);
    AfterConcat(Alone(id, view, phase), LateMoves(late), [m]);
    AfterOne(Alone(id, ReduceAll(view, late), phase), m);
  }

  function EmitPart(id: nat, e: Emission): seq<Move> {
    LateMoves(e.late) + [Emit(id, e.event, e.caught)]
  }

  lemma EmitNext(id: nat, view: View, event: Event, caught: Option<Assistant>)
    ensures Enabled(Alone(id, view, Executing), Emit(id, event, caught))
    ensures Next(Alone(id, view, Executing), Emit(id, event, caught)) ==
            Alone(id, Reduce(view, event), if caught.Some? then Handling(caught.value, 0) else Executing)
  {
  }

  lemma EmitReduces(id: nat, view: View, e: Emission)
    ensures After(Alone(id, view, Executing), EmitPart(id, e)) ==
            Alone(id, ReduceAll(view, e.late + [e.event]),
                  if e.caught.Some? then Handling(e.caught.value, 0) else Executing)
  {
    EmitNext(id, ReduceAll(view, e.late), e.event, e.caught);
    LateThenOne(id, view, Executing, e.late, Emit(id, e.event, e.caught), e.event);
  }

  lemma EmitParts(id: nat, executor: seq<Emission>)
    requires executor != []
    ensures var e := executor[0];
            EmitMoves(id, executor) ==
              EmitPart(id, e) + (if e.caught.Some? then [] else EmitMoves(id, executor[1..])) &&
            Delivered(executor) == (e.late + [e.event]) + if e.caught.Some? then [] else Delivered(executor[1..])
  {
    var e := executor[0];
    var rest := if e.caught.Some? then [] else EmitMoves(id, executor[1..]);
    Assoc(LateMoves(e.late), [Emit(id, e.event, e.caught)], rest);
    Assoc(e.late, [e.event], if e.caught.Some? then [] else Delivered(executor[1..]));
  }

  function ReportPart(id: nat, throws: bool, late: seq<LateEvent>): seq<Move> {
    LateMoves(late) + [Report(id, throws)]
  }

  lemma ReportNext(id: nat, view: View, failure: Assistant, throws: bool, k: nat)
    requires k < 4
    ensures Enabled(Alone(id, view, Handling(failure, k)), Report(id, throws))
    ensures Next(Alone(id, view, Handling(failure, k)), Report(id, throws)) ==
            Alone(id, Reduce(view, FailureEvents(failure)[k]),
                  if throws || k == 3 then Finishing else Handling(failure, k + 1))
  {
  }

  lemma ReportReduces(id: nat, view: View, failure: Assistant, throws: bool, late: seq<LateEvent>, k: nat)
    requires k < 4
    ensures After(Alone(id, view, Handling(failure, k)), ReportPart(id, throws, late)) ==
            Alone(id, ReduceAll(view, late + [FailureEvents(failure)[k]]),
                  if throws || k == 3 then Finishing else Handling(failure, k + 1))
  {
    ReportNext(id, ReduceAll(view, late), failure, throws, k);
    LateThenOne(id, view, Handling(failure, k), late, Report(id, throws), FailureEvents(failure)[k]);
  }

  lemma ReportParts(id: nat, failure: Assistant, throws: seq<bool>, before: seq<seq<LateEvent>>, k: nat)
    requires |throws| == |before| == 4 && k < 4
    ensures var last := throws[k] || k == 3;
            ReportMoves(id, throws, before, k) ==
              ReportPart(id, throws[k], before[k]) + (if last then [] else ReportMoves(id, throws, before, k + 1)) &&
            ReportsFrom(failure, throws, before, k) ==
              (before[k] + [FailureEvents(failure)[k]]) +
              if last then [] else ReportsFrom(failure, throws, before, k + 1)
  {
    var last := throws[k] || k == 3;
    Assoc(LateMoves(before[k]), [Report(id, throws[k])], if last then [] else ReportMoves(id, throws, before, k + 1));
    Assoc(before[k], [FailureEvents(failure)[k]], if last then [] else ReportsFrom(failure, throws, before, k + 1));
  }

  function PhaseAfter(executor: seq<Emission>): Phase {
    var caught := Caught(executor, None);
    if caught.Some? then Handling(caught.value, 0) else Executing
  }

  /** These moves take the one state to the other. */
  ghost predicate Leads(from: Life, moves: seq<Move>, to: Life) {
    After(from, moves) == to
  }

  lemma LeadsOn(a: Life, first: seq<Move>, b: Life, second: seq<Move>, c: Life)
    requires Leads(a, first, b) && Leads(b, second, c)
    ensures Leads(a, first + second, c)
  {
    AfterConcat(a, first, second);
  }

  /** The state in which these emissions leave a run that was executing with this view. */
  function Emitted(id: nat, view: View, executor: seq<Emission>): Life {
    Alone(id, ReduceAll(view, Delivered(executor)), PhaseAfter(executor))
  }

  lemma NothingEmitted(id: nat, view: View)
    ensures Leads(Alone(id, view, Executing), EmitMoves(id, []), Emitted(id, view, []))
  {
  }

  lemma EmittedParts(id: nat, view: View, executor: seq<Emission>)
    requires executor != []
    ensures var e := executor[0];
            var after := ReduceAll(view, e.late + [e.event]);
            Emitted(id, view, executor) ==
              if e.caught.Some? then Alone(id, after, Handling(e.caught.value, 0))
              else Emitted(id, after, executor[1..])
  {
    var e := executor[0];
    EmitParts(id, executor);
    ReduceAllConcat(view, e.late + [e.event], if e.caught.Some? then [] else Delivered(executor[1..]));
  }

  lemma {:induction false} EmitMovesReduce(id: nat, view: View, executor: seq<Emission>)
    ensures Leads(Alone(id, view, Executing), EmitMoves(id, executor), Emitted(id, view, executor))
    decreases executor
  {
    if executor == [] {
      NothingEmitted(id, view);
    } else {
      var e := executor[0];
      var after := ReduceAll(view, e.late + [e.event]);
      EmitParts(id, executor);
      EmittedParts(id, view, executor);
      EmitReduces(id, view, e);
      if e.caught.None? {
        EmitMovesReduce(id, after, executor[1..]);
        LeadsOn(Alone(id, view, Executing), EmitPart(id, e), Alone(id, after, Executing),
                EmitMoves(id, executor[1..]), Emitted(id, after, executor[1..]));
      } else {
        assert EmitPart(id, e) + [] == EmitPart(id, e);
      }
    }
  }

  lemma {:induction false} ReportMovesReduce(
    id: nat, view: View, failure: Assistant, throws: seq<bool>, before: seq<seq<LateEvent>>, k: nat)
    requires |throws| == |before| == 4 && k < 4
    ensures After(Alone(id, view, Handling(failure, k)), ReportMoves(id, throws, before, k)) ==
            Alone(id, ReduceAll(view, ReportsFrom(failure, throws, before, k)), Finishing)
    decreases 4 - k
  {
    var part := before[k] + [FailureEvents(failure)[k]];
    var last := throws[k] || k == 3;
    var rest := if last then [] else ReportMoves(id, throws, before, k + 1);
    var events := if last then [] else ReportsFrom(failure, throws, before, k + 1);
    ReportParts(id, failure, throws, before, k);
    ReportReduces(id, view, failure, throws[k], before[k], k);
    AfterConcat(Alone(id, view, Handling(failure, k)), ReportPart(id, throws[k], before[k]), rest);
    ReduceAllConcat(view, part, events);
    if !last {
      ReportMovesReduce(id, ReduceAll(view, part), failure, throws, before, k + 1);
    }
  }

  lemma {:induction false} CaughtEither(executor: seq<Emission>, own: Option<Assistant>)
    ensures Caught(executor, own) == if Caught(executor, None).Some? then Caught(executor, None) else own
  {
    if executor != [] {
      CaughtEither(executor[1..], own);
    }
  }

  /** From the end of the executor's emissions to the finally clause. */
  lemma ExitMovesReduce(
    id: nat, view: View, executor: seq<Emission>, own: Option<Assistant>, throws: seq<bool>, gaps: Gaps)
    requires |throws| == |gaps.before| == 4
    ensures var caught := Caught(executor, own);
            var moves := if caught.Some? then ReportMoves(id, throws, gaps.before, 0) else [];
            After(After(Alone(id, view, PhaseAfter(executor)), ExitMoves(id, executor, own)), moves) ==
              Alone(id, ReduceAll(view, FailureReports(caught, throws, gaps)), Finishing)
  {
    var caught := Caught(executor, own);
    var l := Alone(id, view, PhaseAfter(executor));
    CaughtEither(executor, own);
    if Caught(executor, None).None? {
      AfterOne(l, if own.Some? then Throw(id, own.value) else Return(id));
    }
    if caught.Some? {
      assert After(l, ExitMoves(id, executor, own)) == Alone(id, view, Handling(caught.value, 0));
      ReportMovesReduce(id, view, caught.value, throws, gaps.before, 0);
    }
  }

  /**
   * A run that starts on an idle agent is these moves, and they leave what the code leaves: the reduction of all that
   * listeners were handed, cleared.
   */
  lemma RunIsMoves(
    l: Life, id: nat, executor: seq<Emission>, own: Option<Assistant>, throws: seq<bool>, gaps: Gaps)
    requires |throws| == |gaps.before| == 4
    requires l.activeRun.None? && !l.isStreaming && l.activations == map[]
    ensures var was := l.view.(streaming := None, errorMessage := None);
            After(l, RunMoves(id, executor, own, throws, gaps)) ==
              Life(ReduceAll(was, EmittedTrace(executor, own, throws, gaps)).(streaming := None, pending := {}),
                   false, None, map[])
  {
    var caught, was := Caught(executor, own), l.view.(streaming := None, errorMessage := None);
    var emits, exits := EmitMoves(id, executor), ExitMoves(id, executor, own);
    var reports := if caught.Some? then ReportMoves(id, throws, gaps.before, 0) else [];
    var delivered, failure := Delivered(executor), FailureReports(caught, throws, gaps);
    AfterOne(l, Start(id));
    AfterConcat(l, [Start(id)], emits);
    EmitMovesReduce(id, was, executor);
    AfterConcat(l, [Start(id)] + emits, exits);
    AfterConcat(l, [Start(id)] + emits + exits, reports);
    ExitMovesReduce(id, ReduceAll(was, delivered), executor, own, throws, gaps);
    ReduceAllConcat(was, delivered, failure);
    AfterConcat(l, [Start(id)] + emits + exits + reports, LateMoves(gaps.atEnd));
    LateMovesReduce(Alone(id, ReduceAll(was, delivered + failure), Finishing), gaps.atEnd);
    ReduceAllConcat(was, delivered + failure, gaps.atEnd);
    AfterConcat(l, [Start(id)] + emits + exits + reports + LateMoves(gaps.atEnd), [Finish(id)]);
    AfterOne(Alone(id, ReduceAll(was, delivered + failure + gaps.atEnd), Finishing), Finish(id));
  }
}
