/** The event protocol without its automaton: turns, in them whole messages and blocks of tool executions. */
module TraceShape {
  import opened Options
  import opened AgentTypes
  import opened Sequences
  import opened ToolBatch
  import opened TraceGrammar
  import opened BatchTheorems
  import opened BatchProtocol

  // ---------- The shape ----------

  /** A message announced and so far only updated; only an assistant's message is. */
  ghost predicate OpensMessage(t: seq<Event>) {
    && t != [] && t[0].MessageStart?
    && forall k :: 0 < k < |t| ==> t[k].MessageUpdate? && t[k].message.FromAssistant? && t[0].message.FromAssistant?
  }

  /** One message from its announcement to its completion. */
  ghost predicate IsMessage(t: seq<Event>) {
    && |t| >= 2 && OpensMessage(t[..|t| - 1])
    && t[|t| - 1].MessageEnd? && Closes(t[0].message, t[|t| - 1].message)
  }

  /** The ids that are started, each as often as it is. */
  function StartsIn(t: seq<Event>): multiset<string> {
    if t == [] then multiset{}
    else
      var e := t[|t| - 1];
      StartsIn(t[..|t| - 1]) + if e.ToolStart? then multiset{e.call.id} else multiset{}
  }

  function EndsIn(t: seq<Event>): multiset<string> {
    if t == [] then multiset{}
    else
      var e := t[|t| - 1];
      EndsIn(t[..|t| - 1]) + if e.ToolEnd? then multiset{e.call.id} else multiset{}
  }

  /** An execution of this id has been started that has not ended. */
  ghost predicate IsRunning(t: seq<Event>, id: string) {
    EndsIn(t)[id] < StartsIn(t)[id]
  }

  /** Tool events in which only running executions report and end. */
  ghost predicate RunsTools(t: seq<Event>) {
    forall k :: 0 <= k < |t| ==> t[k].IsTool() && (t[k].ToolStart? || IsRunning(t[..k], t[k].call.id))
  }

  /** Tool executions all of which have ended. */
  ghost predicate IsToolBlock(t: seq<Event>) {
    RunsTools(t) && StartsIn(t) == EndsIn(t)
  }

  ghost predicate AreSegments(segments: seq<seq<Event>>) {
    forall i :: 0 <= i < |segments| ==> IsMessage(segments[i]) || IsToolBlock(segments[i])
  }

  ghost predicate IsBody(t: seq<Event>) {
    exists segments :: AreSegments(segments) && t == Flatten(segments)
  }

  ghost predicate IsTurn(t: seq<Event>) {
    |t| >= 2 && t[0].TurnStart? && t[|t| - 1].TurnEnd? && IsBody(t[1..|t| - 1])
  }

  ghost predicate AreTurns(turns: seq<seq<Event>>) {
    forall i :: 0 <= i < |turns| ==> IsTurn(turns[i])
  }

  /** A whole run: its start, one turn or more, its end. */
  ghost predicate IsRunTrace(trace: seq<Event>) {
    && |trace| >= 2 && trace[|trace| - 1].AgentEnd?
    && exists turns :: AreTurns(turns) && turns != [] && trace[..|trace| - 1] == [AgentStart] + Flatten(turns)
  }

  // ---------- Tool executions ----------

  lemma RunsToolsSnoc(t: seq<Event>, e: Event)
    ensures RunsTools(t + [e]) <==> RunsTools(t) && e.IsTool() && (e.ToolStart? || IsRunning(t, e.call.id))
  {
    var more := t + [e];
    assert forall k :: 0 <= k < |t| ==> more[..k] == t[..k] && more[k] == t[k];
    assert more[..|t|] == t && more[|t|] == e;
  }

  lemma CountsSnoc(t: seq<Event>, e: Event)
    ensures StartsIn(t + [e]) == StartsIn(t) + if e.ToolStart? then multiset{e.call.id} else multiset{}
    ensures EndsIn(t + [e]) == EndsIn(t) + if e.ToolEnd? then multiset{e.call.id} else multiset{}
  {
    assert (t + [e])[..|t|] == t;
  }

  /** What the automaton counts as running is what was started and has not ended. */
  ghost predicate Counts(t: seq<Event>, running: multiset<string>) {
    EndsIn(t) <= StartsIn(t) && running == StartsIn(t) - EndsIn(t)
  }

  lemma CountStart(started: multiset<string>, ended: multiset<string>, id: string)
    requires ended <= started
    ensures ended <= started + multiset{id}
    ensures started + multiset{id} - ended == started - ended + multiset{id}
  {
  }

  lemma CountEnd(started: multiset<string>, ended: multiset<string>, id: string)
    requires ended <= started && ended[id] < started[id]
    ensures ended + multiset{id} <= started
    ensures started - (ended + multiset{id}) == started - ended - multiset{id}
  {
  }

  lemma RunningIsCounted(t: seq<Event>, running: multiset<string>, id: string)
    requires Counts(t, running)
    ensures id in running <==> IsRunning(t, id)
  {
  }

  /** What the automaton does on a tool event while no message is open. */
  lemma ToolMoves(running: multiset<string>, e: Event)
    requires e.IsTool()
    ensures Advance(InTurn(None, running), e) ==
            if e.ToolStart? then InTurn(None, running + multiset{e.call.id})
            else if e.call.id !in running then Broken
            else InTurn(None, running - if e.ToolEnd? then multiset{e.call.id} else multiset{})
  {
    assert running - multiset{} == running;
  }

  lemma CountsAfter(t: seq<Event>, running: multiset<string>, e: Event)
    requires Counts(t, running) && e.IsTool() && (e.ToolStart? || IsRunning(t, e.call.id))
    ensures Counts(t + [e], if e.ToolStart? then running + multiset{e.call.id}
                            else running - if e.ToolEnd? then multiset{e.call.id} else multiset{})
  {
    CountsSnoc(t, e);
    if e.ToolStart? {
      CountStart(StartsIn(t), EndsIn(t), e.call.id);
    } else if e.ToolEnd? {
      CountEnd(StartsIn(t), EndsIn(t), e.call.id);
    }
  }

  lemma ToolAdvances(t: seq<Event>, running: multiset<string>, e: Event) returns (next: multiset<string>)
    requires Counts(t, running) && e.IsTool()
    ensures e.ToolStart? || IsRunning(t, e.call.id) <==> Advance(InTurn(None, running), e) != Broken
    ensures Advance(InTurn(None, running), e) != Broken ==>
              Advance(InTurn(None, running), e) == InTurn(None, next) && Counts(t + [e], next)
  {
    ToolMoves(running, e);
    RunningIsCounted(t, running, e.call.id);
    next := if e.ToolStart? then running + multiset{e.call.id}
            else running - if e.ToolEnd? then multiset{e.call.id} else multiset{};
    if e.ToolStart? || IsRunning(t, e.call.id) {
      CountsAfter(t, running, e);
    }
  }

  lemma {:induction false} RunsToolsScan(t: seq<Event>) returns (running: multiset<string>)
    requires RunsTools(t)
    ensures Scan(QUIET, t) == InTurn(None, running) && Counts(t, running)
  {
    if t == [] {
      running := multiset{};
    } else {
      var init, e := t[..|t| - 1], t[|t| - 1];
      assert t == init + [e];
      RunsToolsSnoc(init, e);
      running := RunsToolsScan(init);
      running := ToolAdvances(init, running, e);
    }
  }

  // ---------- From the shape to the automaton ----------

  lemma {:induction false} OpenScan(t: seq<Event>)
    requires OpensMessage(t)
    ensures Scan(QUIET, t) == InTurn(Some(t[0].message), multiset{})
  {
    if |t| == 1 {
      assert t == [t[0]];
      ScanOne(QUIET, t[0]);
    } else {
      OpenScan(t[..|t| - 1]);
    }
  }

  lemma SegmentKeepsQuiet(t: seq<Event>)
    requires IsMessage(t) || IsToolBlock(t)
    ensures KeepsQuiet(t)
  {
    if IsMessage(t) {
      OpenScan(t[..|t| - 1]);
    } else {
      var running := RunsToolsScan(t);
      assert running == multiset{};
    }
  }

  lemma BodyKeepsQuiet(t: seq<Event>)
    requires IsBody(t)
    ensures KeepsQuiet(t)
  {
    var segments :| AreSegments(segments) && t == Flatten(segments);
    forall i | 0 <= i < |segments| ensures KeepsQuiet(segments[i]) {
      SegmentKeepsQuiet(segments[i]);
    }
    QuietTracks(segments);
  }

  lemma TurnScan(p: Phase, t: seq<Event>)
    requires IsTurn(t) && (p == Started || p == Between)
    ensures Scan(p, t) == Between
  {
    var body, last := t[1..|t| - 1], t[|t| - 1];
    BodyKeepsQuiet(body);
    assert t[..|t| - 1] == [t[0]] + body;
    ScanOne(p, t[0]);
    ScanConcat(p, [t[0]], body);
  }

  lemma {:induction false} TurnsScan(turns: seq<seq<Event>>)
    requires AreTurns(turns)
    ensures Scan(Started, Flatten(turns)) == if turns == [] then Started else Between
  {
    if turns != [] {
      var init, last := turns[..|turns| - 1], turns[|turns| - 1];
      assert turns == init + [last];
      TurnsScan(init);
      FlattenSnoc(init, last);
      ScanConcat(Started, Flatten(init), last);
      TurnScan(if init == [] then Started else Between, last);
    }
  }

  // ---------- From the automaton to the shape ----------

  /** What belongs to no turn, or brackets one. */
  predicate Brackets(e: Event) {
    e.AgentStart? || e.AgentEnd? || e.TurnStart? || e.TurnEnd?
  }

  ghost predicate Within(t: seq<Event>) {
    forall e :: e in t ==> !Brackets(e)
  }

  /** What has been read of a turn: whole segments, and a last one that may still be going on. */
  ghost predicate Split(t: seq<Event>, segments: seq<seq<Event>>, part: seq<Event>, p: Phase) {
    && AreSegments(segments) && t == Flatten(segments) + part && p.InTurn?
    && if p.open.Some? then OpensMessage(part) && p.open == Some(part[0].message) && p.running == multiset{}
       else RunsTools(part) && Counts(part, p.running)
  }

  lemma OneMoreSegment(segments: seq<seq<Event>>, segment: seq<Event>)
    requires AreSegments(segments) && (IsMessage(segment) || IsToolBlock(segment))
    ensures AreSegments(segments + [segment]) && Flatten(segments + [segment]) == Flatten(segments) + segment
  {
    FlattenSnoc(segments, segment);
  }

  lemma AllHaveEnded(part: seq<Event>, p: Phase)
    requires p.InTurn? && p.running == multiset{} && RunsTools(part) && Counts(part, p.running)
    ensures IsToolBlock(part)
  {
    assert StartsIn(part) == EndsIn(part) + (StartsIn(part) - EndsIn(part));
  }

  lemma MessageStarts(t: seq<Event>, segments: seq<seq<Event>>, part: seq<Event>, p: Phase, e: Event)
    requires Split(t, segments, part, p) && e.MessageStart? && Advance(p, e) != Broken
    ensures Split(t + [e], segments + [part], [e], Advance(p, e))
  {
    AllHaveEnded(part, p);
    OneMoreSegment(segments, part);
  }

  lemma MessageUpdates(t: seq<Event>, segments: seq<seq<Event>>, part: seq<Event>, p: Phase, e: Event)
    requires Split(t, segments, part, p) && e.MessageUpdate? && Advance(p, e) != Broken
    ensures Split(t + [e], segments, part + [e], Advance(p, e))
  {
    Assoc(Flatten(segments), part, [e]);
  }

  lemma MessageEnds(t: seq<Event>, segments: seq<seq<Event>>, part: seq<Event>, p: Phase, e: Event)
    requires Split(t, segments, part, p) && e.MessageEnd? && Advance(p, e) != Broken
    ensures Split(t + [e], segments + [part + [e]], [], Advance(p, e))
  {
    var message := part + [e];
    assert message[..|message| - 1] == part;
    Assoc(Flatten(segments), part, [e]);
    OneMoreSegment(segments, message);
  }

  lemma ToolGoesOn(t: seq<Event>, segments: seq<seq<Event>>, part: seq<Event>, p: Phase, e: Event)
    requires Split(t, segments, part, p) && e.IsTool() && Advance(p, e) != Broken
    ensures Split(t + [e], segments, part + [e], Advance(p, e))
  {
    Assoc(Flatten(segments), part, [e]);
    var running := ToolAdvances(part, p.running, e);
    RunsToolsSnoc(part, e);
  }

  lemma OneMoreRead(t: seq<Event>, segments: seq<seq<Event>>, part: seq<Event>, p: Phase, e: Event)
    returns (segments': seq<seq<Event>>, part': seq<Event>)
    requires Split(t, segments, part, p) && !Brackets(e) && Advance(p, e) != Broken
    ensures Split(t + [e], segments', part', Advance(p, e))
  {
    if e.MessageStart? {
      MessageStarts(t, segments, part, p, e);
      segments', part' := segments + [part], [e];
    } else if e.MessageEnd? {
      MessageEnds(t, segments, part, p, e);
      segments', part' := segments + [part + [e]], [];
    } else if e.MessageUpdate? {
      MessageUpdates(t, segments, part, p, e);
      segments', part' := segments, part + [e];
    } else {
      ToolGoesOn(t, segments, part, p, e);
      segments', part' := segments, part + [e];
    }
  }

  lemma {:induction false} Segments(t: seq<Event>) returns (segments: seq<seq<Event>>, part: seq<Event>)
    requires Within(t) && Scan(QUIET, t) != Broken
    ensures Split(t, segments, part, Scan(QUIET, t))
  {
    if t == [] {
      segments, part := [], [];
    } else {
      var init, e := t[..|t| - 1], t[|t| - 1];
      assert t == init + [e];
      segments, part := Segments(init);
      ScanOneMore(QUIET, init, e);
      segments, part := OneMoreRead(init, segments, part, Scan(QUIET, init), e);
    }
  }

  lemma QuietIsBody(t: seq<Event>)
    requires Within(t) && Scan(QUIET, t) == QUIET
    ensures IsBody(t)
  {
    var segments, part := Segments(t);
    AllHaveEnded(part, QUIET);
    OneMoreSegment(segments, part);
  }

  /** What has been read of a run: whole turns, and of a turn that is going on what came after its start. */
  ghost predicate Read(t: seq<Event>, turns: seq<seq<Event>>, rest: seq<Event>, p: Phase) {
    && AreTurns(turns)
    && match p
       case Before => t == []
       case Started => t == [AgentStart] && turns == []
       case InTurn(_, _) =>
         t == [AgentStart] + Flatten(turns) + ([TurnStart] + rest) && Within(rest) && Scan(QUIET, rest) == p
       case Between => turns != [] && t == [AgentStart] + Flatten(turns)
       case Ended => IsRunTrace(t)
       case Broken => false
  }

  lemma TurnOpens(t: seq<Event>, turns: seq<seq<Event>>, rest: seq<Event>, p: Phase, e: Event)
    requires Read(t, turns, rest, p) && (p == Started || p == Between) && e.TurnStart?
    ensures Read(t + [e], turns, [], QUIET)
  {
    assert [TurnStart] + [] == [e];
    if p == Started {
      assert [AgentStart] + Flatten([]) == [AgentStart];
    }
  }

  lemma TurnGoesOn(t: seq<Event>, turns: seq<seq<Event>>, rest: seq<Event>, p: Phase, e: Event)
    requires Read(t, turns, rest, p) && p.InTurn? && !Brackets(e) && Advance(p, e) != Broken
    ensures Read(t + [e], turns, rest + [e], Advance(p, e))
  {
    Assoc([AgentStart] + Flatten(turns), [TurnStart] + rest, [e]);
    Assoc([TurnStart], rest, [e]);
    ScanOneMore(QUIET, rest, e);
  }

  lemma ScanOneMore(p: Phase, t: seq<Event>, e: Event)
    ensures Scan(p, t + [e]) == Advance(Scan(p, t), e)
  {
    assert (t + [e])[..|t|] == t;
  }

  lemma TurnCloses(t: seq<Event>, turns: seq<seq<Event>>, rest: seq<Event>, p: Phase, e: Event)
    requires Read(t, turns, rest, p) && p.InTurn? && e.TurnEnd? && Advance(p, e) != Broken
    ensures Read(t + [e], turns + [[TurnStart] + rest + [e]], [], Between)
  {
    var turn := [TurnStart] + rest + [e];
    QuietIsBody(rest);
    assert turn[1..|turn| - 1] == rest;
    FlattenSnoc(turns, turn);
    Assoc([AgentStart] + Flatten(turns), [TurnStart] + rest, [e]);
    Assoc([AgentStart], Flatten(turns), turn);
  }

  lemma RunEnds(t: seq<Event>, turns: seq<seq<Event>>, rest: seq<Event>, e: Event)
    requires Read(t, turns, rest, Between) && e.AgentEnd?
    ensures Read(t + [e], turns, [], Ended)
  {
    assert (t + [e])[..|t + [e]| - 1] == t;
  }

  lemma {:induction false} Turns(t: seq<Event>) returns (turns: seq<seq<Event>>, rest: seq<Event>)
    requires Scan(Before, t) != Broken
    ensures Read(t, turns, rest, Scan(Before, t))
  {
    turns, rest := [], [];
    if t != [] {
      var init, e := t[..|t| - 1], t[|t| - 1];
      var p := Scan(Before, init);
      assert t == init + [e];
      turns, rest := Turns(init);
      if p == Before {
        turns, rest := [], [];
      } else if p.InTurn? && e.TurnEnd? {
        TurnCloses(init, turns, rest, p, e);
        turns, rest := turns + [[TurnStart] + rest + [e]], [];
      } else if p.InTurn? {
        TurnGoesOn(init, turns, rest, p, e);
        rest := rest + [e];
      } else if e.TurnStart? {
        TurnOpens(init, turns, rest, p, e);
        rest := [];
      } else {
        RunEnds(init, turns, rest, e);
        rest := [];
      }
    }
  }

  lemma AcceptedIsRun(trace: seq<Event>)
    requires Accepts(trace)
    ensures IsRunTrace(trace)
  {
    var turns, rest := Turns(trace);
  }

  lemma RunIsAccepted(trace: seq<Event>)
    requires IsRunTrace(trace)
    ensures Accepts(trace)
  {
    var init, last := trace[..|trace| - 1], trace[|trace| - 1];
    var turns :| AreTurns(turns) && turns != [] && init == [AgentStart] + Flatten(turns);
    TurnsScan(turns);
    ScanOne(Before, AgentStart);
    ScanConcat(Before, [AgentStart], Flatten(turns));
  }

  /**
   * What acceptance means: the trace of an accepted run is agent_start, one or more turns and agent_end; a turn is
   * turn_start, whole messages and blocks of tool executions, and turn_end; and every such trace is accepted.
   */
  lemma AcceptsExactly(trace: seq<Event>)
    ensures Accepts(trace) <==> IsRunTrace(trace)
  {
    if Accepts(trace) {
      AcceptedIsRun(trace);
    }
    if IsRunTrace(trace) {
      RunIsAccepted(trace);
    }
  }
}
