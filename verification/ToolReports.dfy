/** What a listener hears of a running tool that may report at any time: see `acceptingUpdates`. */
module ToolReports {
  import opened AgentTypes
  import opened Sequences
  import opened ToolBatch

  lemma StepShows(r: Running)
    requires r.steps != []
    ensures Emitted(r) == Shows(r) + Emitted(AfterStep(r))
  {
  }

  lemma ReportShows(r: Running, reports: seq<string>, rest: seq<ToolStep>)
    requires reports != [] && r.steps == Reports(reports) + rest
    ensures var next := AfterStep(r);
            next.steps == Reports(reports[1..]) + rest && next.(steps := rest) == r.(steps := rest) &&
            next.acceptingUpdates == r.acceptingUpdates && next.call == r.call
    ensures Shows(r) == if r.acceptingUpdates then [ToolUpdate(r.call, reports[0])] else []
  {
    assert AfterStep(r).steps == Reports(reports[1..]) + rest;
  }

  function Heard(r: Running, reports: seq<string>): seq<Event> {
    if r.acceptingUpdates then Updates(r.call, reports) else []
  }

  /** Reports show while updates are accepted, and only then. */
  lemma {:induction false} ReportsShow(r: Running, reports: seq<string>, rest: seq<ToolStep>)
    requires r.steps == Reports(reports) + rest
    ensures Emitted(r) == Heard(r, reports) + Emitted(r.(steps := rest))
    decreases |reports|
  {
    if reports == [] {
      assert r.(steps := rest) == r;
    } else {
      var next, last := AfterStep(r), r.(steps := rest);
      ReportShows(r, reports, rest);
      StepShows(r);
      ReportsShow(next, reports[1..], rest);
      HeardNext(r, next, reports);
      Assoc(Shows(r), Heard(next, reports[1..]), Emitted(last));
    }
  }

  lemma HeardNext(r: Running, next: Running, reports: seq<string>)
    requires reports != [] && next.acceptingUpdates == r.acceptingUpdates && next.call == r.call
    ensures Heard(r, reports) ==
            (if r.acceptingUpdates then [ToolUpdate(r.call, reports[0])] else []) + Heard(next, reports[1..])
  {
    FirstUpdate(r.call, reports);
  }

  lemma FirstUpdate(call: ToolCall, reports: seq<string>)
    requires reports != []
    ensures Updates(call, reports) == [ToolUpdate(call, reports[0])] + Updates(call, reports[1..])
  {
  }

  /** After its settlement a tool can report what it likes: only its end is seen. */
  lemma SettledShowsEnd(r: Running, late: seq<string>, stray: seq<string>)
    requires !r.acceptingUpdates && r.steps == Reports(late) + ([Ending] + Reports(stray))
    ensures Emitted(r) == [End(FinishedOf(r))]
  {
    var ending := r.(steps := [Ending] + Reports(stray));
    ReportsShow(r, late, [Ending] + Reports(stray));
    assert AfterStep(ending).steps == Reports(stray) + [];
    ReportsShow(AfterStep(ending), stray, []);
  }

  /** A running call shows exactly the reports made before it settled, then its end; later reports leave no event. */
  lemma RunningShows(tools: seq<Tool>, call: ToolCall, env: CallEnv)
    ensures Emitted(Launched(tools, call, env)) == Remaining(tools, call, env)
  {
    var r := Launched(tools, call, env);
    if Prepare(tools, call, env).Prepared? {
      var k, m := SettledAt(env), EndedAt(env);
      var later := Reports(env.reports[k..m]) + ([Ending] + Reports(env.reports[m..]));
      ReportsShow(r, env.reports[..k], [Settling] + later);
      var settling := r.(steps := [Settling] + later);
      assert AfterStep(settling).steps == later;
      SettledShowsEnd(AfterStep(settling), env.reports[k..m], env.reports[m..]);
    }
  }
}
