/** What every interleaving of a tool batch keeps. */
module BatchTheorems {
  import opened AgentTypes
  import opened Sequences
  import opened AgentState
  import opened ToolBatch
  import opened ToolReports

  // ---------- Interleavings ----------

  ghost predicate AllDone(ps: seq<seq<Event>>) {
    forall i :: 0 <= i < |ps| ==> ps[i] == []
  }

  /** `t` lets some process with events left move, again and again, until none has any left. */
  ghost predicate IsInterleaving(ps: seq<seq<Event>>, t: seq<Event>)
    decreases |t|
  {
    if t == [] then AllDone(ps)
    else exists p: nat :: CanStep(ps, p) && ps[p][0] == t[0] && IsInterleaving(StepOf(ps, p), t[1..])
  }

  lemma StepIsInterleaving(ps: seq<seq<Event>>, p: nat, t: seq<Event>)
    requires CanStep(ps, p) && IsInterleaving(StepOf(ps, p), t)
    ensures IsInterleaving(ps, [ps[p][0]] + t)
  {
    assert ([ps[p][0]] + t)[1..] == t;
  }

  lemma {:induction false} FlattenSkips(ps: seq<seq<Event>>, p: nat)
    requires CanStep(ps, p) && forall i :: 0 <= i < p ==> ps[i] == []
    ensures Flatten(ps) == [ps[p][0]] + Flatten(StepOf(ps, p))
  {
    if p == 0 {
      assert StepOf(ps, 0)[1..] == ps[1..];
      assert ps[0] == [ps[0][0]] + ps[0][1..];
      Assoc([ps[0][0]], ps[0][1..], Flatten(ps[1..]));
    } else {
      FlattenSkips(ps[1..], p - 1);
      assert StepOf(ps, p)[1..] == StepOf(ps[1..], p - 1);
      assert [] + Flatten(ps[1..]) == Flatten(ps[1..]);
      assert [] + Flatten(StepOf(ps, p)[1..]) == Flatten(StepOf(ps, p)[1..]);
    }
  }

  lemma {:induction false} FlattenDone(ps: seq<seq<Event>>)
    ensures Flatten(ps) == [] <==> AllDone(ps)
  {
    if ps != [] {
      FlattenDone(ps[1..]);
      assert forall i :: 0 < i < |ps| ==> ps[i] == ps[1..][i - 1];
      assert AllDone(ps[1..]) <==> forall i :: 0 < i < |ps| ==> ps[i] == [] by {
        if AllDone(ps[1..]) {
        } else {
          var i :| 0 <= i < |ps[1..]| && ps[1..][i] != [];
          assert ps[i + 1] != [];
        }
      }
    }
  }

  lemma FirstReady(ps: seq<seq<Event>>) returns (p: nat)
    requires !AllDone(ps)
    ensures CanStep(ps, p) && forall i :: 0 <= i < p ==> ps[i] == []
  {
    p := 0;
    while ps[p] == []
      invariant p < |ps| && forall i :: 0 <= i < p ==> ps[i] == []
      decreases |ps| - p
    {
      p := p + 1;
    }
  }

  lemma {:induction false} FlattenIsInterleaving(ps: seq<seq<Event>>)
    ensures IsInterleaving(ps, Flatten(ps))
    decreases |Flatten(ps)|
  {
    FlattenDone(ps);
    if !AllDone(ps) {
      var p := FirstReady(ps);
      FlattenSkips(ps, p);
      FlattenIsInterleaving(StepOf(ps, p));
      StepIsInterleaving(ps, p, Flatten(StepOf(ps, p)));
    }
  }

  // ---------- Schedules and interleavings are the same thing ----------

  lemma RunsShow(tools: seq<Tool>, calls: seq<ToolCall>, envs: seq<CallEnv>, n: nat)
    requires n <= |calls| == |envs|
    ensures AllEmitted(Launches(tools, calls, envs, n)) == Processes(tools, calls, envs, n)
  {
    forall i | 0 <= i < n
      ensures AllEmitted(Launches(tools, calls, envs, n))[i] == Processes(tools, calls, envs, n)[i]
    {
      RunningShows(tools, calls[i], envs[i]);
    }
  }

  /** A step that shows nothing changes nothing a listener will see; any other takes the next event. */
  lemma RunStepShows(runs: seq<Running>, p: nat)
    requires CanRun(runs, p)
    ensures Shows(runs[p]) == [] ==> AllEmitted(RunStep(runs, p)) == AllEmitted(runs)
    ensures Shows(runs[p]) != [] ==>
            CanStep(AllEmitted(runs), p) && Shows(runs[p]) == [AllEmitted(runs)[p][0]] &&
            AllEmitted(RunStep(runs, p)) == StepOf(AllEmitted(runs), p)
  {
    var r, next := runs[p], AfterStep(runs[p]);
    assert Emitted(r) == Shows(r) + Emitted(next);
    assert AllEmitted(RunStep(runs, p)) == AllEmitted(runs)[p := Emitted(next)];
    if Shows(r) == [] {
      assert Emitted(r) == Emitted(next);
    } else {
      assert Emitted(r)[1..] == Emitted(next);
    }
  }

  lemma ShownThenRest(ps: seq<seq<Event>>, next: seq<seq<Event>>, p: nat, shown: seq<Event>, rest: seq<Event>)
    requires shown == [] ==> next == ps
    requires shown != [] ==> CanStep(ps, p) && shown == [ps[p][0]] && next == StepOf(ps, p)
    requires IsInterleaving(next, rest)
    ensures IsInterleaving(ps, shown + rest)
  {
    if shown == [] {
      assert shown + rest == rest;
    } else {
      StepIsInterleaving(ps, p, rest);
    }
  }

  lemma {:induction false} RaceIsInterleaving(runs: seq<Running>, schedule: seq<nat>)
    ensures IsInterleaving(AllEmitted(runs), Race(runs, schedule))
    decreases |schedule|
  {
    if schedule == [] {
      FlattenIsInterleaving(AllEmitted(runs));
    } else if CanRun(runs, schedule[0]) {
      var p := schedule[0];
      var rest := Race(RunStep(runs, p), schedule[1..]);
      RaceIsInterleaving(RunStep(runs, p), schedule[1..]);
      RunStepShows(runs, p);
      ShownThenRest(AllEmitted(runs), AllEmitted(RunStep(runs, p)), p, Shows(runs[p]), rest);
    } else {
      RaceIsInterleaving(runs, schedule[1..]);
    }
  }

  function TotalSteps(runs: seq<Running>): nat {
    if runs == [] then 0 else |runs[0].steps| + TotalSteps(runs[1..])
  }

  lemma {:induction false} RunStepCounts(runs: seq<Running>, p: nat)
    requires CanRun(runs, p)
    ensures TotalSteps(RunStep(runs, p)) == TotalSteps(runs) - 1
  {
    if p == 0 {
      assert RunStep(runs, 0)[1..] == runs[1..];
    } else {
      RunStepCounts(runs[1..], p - 1);
      assert RunStep(runs, p)[1..] == RunStep(runs[1..], p - 1);
    }
  }

  lemma RaceFirst(runs: seq<Running>, p: nat, rest: seq<nat>)
    requires CanRun(runs, p)
    ensures Race(runs, [p] + rest) == Shows(runs[p]) + Race(RunStep(runs, p), rest)
  {
    assert ([p] + rest)[1..] == rest;
  }

  lemma {:induction false} InterleavingHasSchedule(runs: seq<Running>, t: seq<Event>) returns (schedule: seq<nat>)
    requires IsInterleaving(AllEmitted(runs), t)
    ensures Race(runs, schedule) == t
    decreases TotalSteps(runs)
  {
    if t == [] {
      schedule := [];
      FlattenDone(AllEmitted(runs));
    } else {
      var ps := AllEmitted(runs);
      var p: nat :| CanStep(ps, p) && ps[p][0] == t[0] && IsInterleaving(StepOf(ps, p), t[1..]);
      RunStepShows(runs, p);
      RunStepCounts(runs, p);
      var shown := Shows(runs[p]);
      var rest := InterleavingHasSchedule(RunStep(runs, p), if shown == [] then t else t[1..]);
      schedule := [p] + rest;
      RaceFirst(runs, p, rest);
      assert shown + (if shown == [] then t else t[1..]) == t;
    }
  }

  /** Scheduling loses nothing: the schedules of running tools give exactly the interleavings of what they show. */
  lemma SchedulesAreInterleavings(runs: seq<Running>, t: seq<Event>)
    ensures IsInterleaving(AllEmitted(runs), t) <==> exists schedule :: Race(runs, schedule) == t
  {
    if IsInterleaving(AllEmitted(runs), t) {
      var schedule := InterleavingHasSchedule(runs, t);
    }
    if schedule :| Race(runs, schedule) == t {
      RaceIsInterleaving(runs, schedule);
    }
  }

  /** A batch's concurrent part interleaves what its calls show, whatever the schedule. */
  lemma RaceInterleavesProcesses(tools: seq<Tool>, calls: seq<ToolCall>, envs: seq<CallEnv>, n: nat, schedule: seq<nat>)
    requires n <= |calls| == |envs|
    ensures IsInterleaving(Processes(tools, calls, envs, n), Race(Launches(tools, calls, envs, n), schedule))
  {
    RunsShow(tools, calls, envs, n);
    RaceIsInterleaving(Launches(tools, calls, envs, n), schedule);
  }

  // ---------- The events of one call ----------

  function OfCall(t: seq<Event>, id: string): seq<Event> {
    if t == [] then []
    else
      var e := t[|t| - 1];
      OfCall(t[..|t| - 1], id) + if e.IsTool() && e.call.id == id then [e] else []
  }

  lemma {:induction false} OfCallConcat(a: seq<Event>, b: seq<Event>, id: string)
    ensures OfCall(a + b, id) == OfCall(a, id) + OfCall(b, id)
  {
    if b == [] {
      assert a + b == a;
    } else {
      var init := b[..|b| - 1];
      assert (a + b)[..|a + b| - 1] == a + init;
      OfCallConcat(a, init, id);
    }
  }

  lemma {:induction false} OfCallMembers(t: seq<Event>, id: string)
    ensures (forall e :: e in t ==> e.IsTool() && e.call.id == id) ==> OfCall(t, id) == t
    ensures (forall e :: e in t ==> !e.IsTool() || e.call.id != id) ==> OfCall(t, id) == []
    ensures forall e :: e in t && e.IsTool() && e.call.id == id ==> e in OfCall(t, id)
  {
    if t != [] {
      OfCallMembers(t[..|t| - 1], id);
      assert t == t[..|t| - 1] + [t[|t| - 1]];
    }
  }

  ghost predicate Tagged(ps: seq<seq<Event>>, ids: seq<string>) {
    |ids| == |ps| && forall j, e :: 0 <= j < |ps| && e in ps[j] ==> e.IsTool() && e.call.id == ids[j]
  }

  ghost predicate Distinct(ids: seq<string>) {
    forall i, j :: 0 <= i < j < |ids| ==> ids[i] != ids[j]
  }

  lemma OfCallHead(e: Event, t: seq<Event>, id: string)
    ensures OfCall([e] + t, id) == (if e.IsTool() && e.call.id == id then [e] else []) + OfCall(t, id)
  {
    OfCallConcat([e], t, id);
    assert [e][..0] == [];
    assert OfCall([e][..0], id) == [];
  }

  lemma TaggedStep(ps: seq<seq<Event>>, ids: seq<string>, p: nat)
    requires CanStep(ps, p) && Tagged(ps, ids)
    ensures Tagged(StepOf(ps, p), ids)
  {
    var rest := StepOf(ps, p);
    forall j, e | 0 <= j < |rest| && e in rest[j] ensures e in ps[j] {}
  }

  lemma HeadOfCall(ps: seq<seq<Event>>, ids: seq<string>, p: nat, i: nat)
    requires CanStep(ps, p) && Tagged(ps, ids) && Distinct(ids) && i < |ps|
    ensures var e := ps[p][0];
            ps[i] == (if e.IsTool() && e.call.id == ids[i] then [e] else []) + StepOf(ps, p)[i]
  {
    var e := ps[p][0];
    assert e in ps[p];
    if i == p {
      assert ps[i] == [e] + ps[i][1..];
    } else {
      assert ids[i] != ids[p];
      assert [] + ps[i] == ps[i];
    }
  }

  /** However the processes are interleaved, each one's events come out whole and in its own order. */
  lemma {:induction false} InterleavingProjects(ps: seq<seq<Event>>, t: seq<Event>, ids: seq<string>, i: nat)
    requires IsInterleaving(ps, t) && Tagged(ps, ids) && Distinct(ids) && i < |ps|
    ensures OfCall(t, ids[i]) == ps[i]
    decreases |t|
  {
    if t != [] {
      var p: nat :| CanStep(ps, p) && ps[p][0] == t[0] && IsInterleaving(StepOf(ps, p), t[1..]);
      var rest := StepOf(ps, p);
      TaggedStep(ps, ids, p);
      InterleavingProjects(rest, t[1..], ids, i);
      assert t == [t[0]] + t[1..];
      OfCallHead(t[0], t[1..], ids[i]);
      HeadOfCall(ps, ids, p, i);
    }
  }

  lemma {:induction false} InterleavingMembers(ps: seq<seq<Event>>, t: seq<Event>)
    requires IsInterleaving(ps, t)
    ensures forall e :: e in t ==> exists j :: 0 <= j < |ps| && e in ps[j]
    decreases |t|
  {
    if t != [] {
      var p: nat :| CanStep(ps, p) && ps[p][0] == t[0] && IsInterleaving(StepOf(ps, p), t[1..]);
      var rest := StepOf(ps, p);
      InterleavingMembers(rest, t[1..]);
      forall e | e in t ensures exists j :: 0 <= j < |ps| && e in ps[j] {
        assert t == [t[0]] + t[1..];
        if e == t[0] {
          assert ps[p][0] in ps[p];
        } else {
          var j :| 0 <= j < |rest| && e in rest[j];
          assert e in ps[j];
        }
      }
    }
  }

  /** One start, then only updates, then one end. */
  ghost predicate IsLife(s: seq<Event>, call: ToolCall) {
    && |s| >= 2 && s[0] == ToolStart(call)
    && s[|s| - 1].ToolEnd? && s[|s| - 1].call == call
    && forall k :: 0 < k < |s| - 1 ==> s[k].ToolUpdate? && s[k].call == call
  }

  ghost predicate HasLife(s: seq<Event>) {
    exists call :: IsLife(s, call)
  }

  lemma LifeIsLife(tools: seq<Tool>, call: ToolCall, env: CallEnv)
    ensures IsLife(Life(tools, call, env), call)
    ensures forall e :: e in Opening(tools, call, env) ==> e.IsTool() && e.call.id == call.id
    ensures forall e :: e in Remaining(tools, call, env) ==> (e.ToolUpdate? || e.ToolEnd?) && e.call.id == call.id
  {
    assert Outcome(tools, call, env).call == call;
  }

  function Ids(calls: seq<ToolCall>): seq<string> {
    seq(|calls|, i requires 0 <= i < |calls| => calls[i].id)
  }

  lemma {:induction false} OfCallInPairs(ms: seq<Message>, id: string)
    ensures OfCall(Pairs(ms), id) == []
  {
    if ms != [] {
      var m := ms[|ms| - 1];
      OfCallInPairs(ms[..|ms| - 1], id);
      OfCallConcat(Pairs(ms[..|ms| - 1]), Pair(m), id);
      OfCallMembers(Pair(m), id);
    }
  }

  lemma {:induction false} FlattenSnoc(ps: seq<seq<Event>>, last: seq<Event>)
    ensures Flatten(ps + [last]) == Flatten(ps) + last
  {
    if ps == [] {
      assert ([last])[1..] == [];
      assert last + [] == last && [] + last == last;
    } else {
      FlattenSnoc(ps[1..], last);
      assert (ps + [last])[1..] == ps[1..] + [last];
      Assoc(ps[0], Flatten(ps[1..]), last);
    }
  }

  function Openings(tools: seq<Tool>, calls: seq<ToolCall>, envs: seq<CallEnv>, n: nat): seq<seq<Event>>
    requires n <= |calls| == |envs|
  {
    seq(n, i requires 0 <= i < n => Opening(tools, calls[i], envs[i]))
  }

  function Lives(tools: seq<Tool>, calls: seq<ToolCall>, envs: seq<CallEnv>, n: nat): seq<seq<Event>>
    requires n <= |calls| == |envs|
  {
    seq(n, i requires 0 <= i < n => Life(tools, calls[i], envs[i]))
  }

  lemma OneMoreOpening(tools: seq<Tool>, calls: seq<ToolCall>, envs: seq<CallEnv>, n: nat)
    requires 0 < n <= |calls| == |envs|
    ensures Openings(tools, calls, envs, n) ==
            Openings(tools, calls, envs, n - 1) + [Opening(tools, calls[n - 1], envs[n - 1])]
  {
  }

  lemma {:induction false} PreparationIsFlat(tools: seq<Tool>, calls: seq<ToolCall>, envs: seq<CallEnv>, n: nat)
    requires n <= |calls| == |envs|
    ensures PreparationEvents(tools, calls, envs, n) == Flatten(Openings(tools, calls, envs, n))
  {
    if n > 0 {
      PreparationIsFlat(tools, calls, envs, n - 1);
      FlattenSnoc(Openings(tools, calls, envs, n - 1), Opening(tools, calls[n - 1], envs[n - 1]));
      OneMoreOpening(tools, calls, envs, n);
    }
  }

  lemma OfCallInWholeCall(tools: seq<Tool>, call: ToolCall, env: CallEnv, id: string)
    ensures OfCall(WholeCall(tools, call, env), id) == OfCall(Life(tools, call, env), id)
  {
    var life, reply := Life(tools, call, env), Pair(Reply(Outcome(tools, call, env)));
    OfCallMembers(reply, id);
    OfCallConcat(life, reply, id);
  }

  /** One track per reached call: its preparation, its concurrent part, its reply. */
  function Tracks(tools: seq<Tool>, calls: seq<ToolCall>, envs: seq<CallEnv>, n: nat): seq<seq<Event>>
    requires n <= |calls| == |envs|
  {
    seq(n, i requires 0 <= i < n => WholeCall(tools, calls[i], envs[i]))
  }

  lemma OneMoreTrack(tools: seq<Tool>, calls: seq<ToolCall>, envs: seq<CallEnv>, n: nat)
    requires 0 < n <= |calls| == |envs|
    ensures Tracks(tools, calls, envs, n) ==
            Tracks(tools, calls, envs, n - 1) + [WholeCall(tools, calls[n - 1], envs[n - 1])]
  {
  }

  /** These events are those of the tracks, one after the other. */
  ghost predicate RunsThrough(events: seq<Event>, tracks: seq<seq<Event>>) {
    events == Flatten(tracks)
  }

  lemma OneMoreThrough(events: seq<Event>, tracks: seq<seq<Event>>, track: seq<Event>)
    requires RunsThrough(events, tracks)
    ensures RunsThrough(events + track, tracks + [track])
  {
    FlattenSnoc(tracks, track);
  }

  lemma {:induction false} SequentialFlat(tools: seq<Tool>, calls: seq<ToolCall>, envs: seq<CallEnv>, n: nat)
    requires n <= |calls| == |envs|
    ensures RunsThrough(SequentialEvents(tools, calls, envs, n), Tracks(tools, calls, envs, n))
  {
    if n > 0 {
      var events, tracks := SequentialEvents(tools, calls, envs, n - 1), Tracks(tools, calls, envs, n - 1);
      SequentialFlat(tools, calls, envs, n - 1);
      OneMoreThrough(events, tracks, WholeCall(tools, calls[n - 1], envs[n - 1]));
      OneMoreTrack(tools, calls, envs, n);
    }
  }

  /** Processes that look alike to an id also do so one after the other. */
  lemma {:induction false} FlattenLooksAlike(ps: seq<seq<Event>>, qs: seq<seq<Event>>, id: string)
    requires |ps| == |qs| && forall i :: 0 <= i < |ps| ==> OfCall(ps[i], id) == OfCall(qs[i], id)
    ensures OfCall(Flatten(ps), id) == OfCall(Flatten(qs), id)
  {
    if ps != [] {
      FlattenLooksAlike(ps[1..], qs[1..], id);
      OfCallConcat(ps[0], Flatten(ps[1..]), id);
      OfCallConcat(qs[0], Flatten(qs[1..]), id);
    }
  }

  /** What an id sees of calls run one after the other is what it sees of their lives. */
  ghost predicate SeesLives(events: seq<Event>, lives: seq<seq<Event>>, id: string) {
    OfCall(events, id) == OfCall(Flatten(lives), id)
  }

  lemma SequenceIsFlat(tools: seq<Tool>, calls: seq<ToolCall>, envs: seq<CallEnv>, n: nat, id: string)
    requires n <= |calls| == |envs|
    ensures SeesLives(SequentialEvents(tools, calls, envs, n), Lives(tools, calls, envs, n), id)
  {
    var tracks, lives := Tracks(tools, calls, envs, n), Lives(tools, calls, envs, n);
    forall i | 0 <= i < n ensures OfCall(tracks[i], id) == OfCall(lives[i], id) {
      OfCallInWholeCall(tools, calls[i], envs[i], id);
    }
    FlattenLooksAlike(tracks, lives, id);
    SequentialFlat(tools, calls, envs, n);
  }

  /** Of interleaved processes, an id's events are its own process, or nothing if it is nobody's. */
  lemma OfCallInRace(ps: seq<seq<Event>>, t: seq<Event>, ids: seq<string>, id: string)
    requires IsInterleaving(ps, t) && Tagged(ps, ids) && Distinct(ids)
    ensures forall i :: 0 <= i < |ps| && ids[i] == id ==> OfCall(t, id) == ps[i]
    ensures id !in ids ==> OfCall(t, id) == []
  {
    forall i | 0 <= i < |ps| && ids[i] == id ensures OfCall(t, id) == ps[i] {
      InterleavingProjects(ps, t, ids, i);
    }
    if id !in ids {
      InterleavingMembers(ps, t);
      forall e | e in t ensures !e.IsTool() || e.call.id != id {
        var j :| 0 <= j < |ps| && e in ps[j];
        assert e.IsTool() && e.call.id == ids[j];
      }
      OfCallMembers(t, id);
    }
  }

  lemma PartsTagged(tools: seq<Tool>, calls: seq<ToolCall>, envs: seq<CallEnv>, n: nat)
    requires n <= |calls| == |envs|
    ensures Tagged(Openings(tools, calls, envs, n), Ids(calls[..n]))
    ensures Tagged(Lives(tools, calls, envs, n), Ids(calls[..n]))
    ensures Tagged(Processes(tools, calls, envs, n), Ids(calls[..n]))
  {
    forall j | 0 <= j < n
      ensures forall e | e in Opening(tools, calls[j], envs[j]) + Life(tools, calls[j], envs[j])
                              + Remaining(tools, calls[j], envs[j]) ::
                e.IsTool() && e.call.id == Ids(calls[..n])[j]
    {
      LifeIsLife(tools, calls[j], envs[j]);
    }
  }

  /** An id's events come first from the openings and then from the race, as they do in its call's life. */
  lemma TracksProject(
    openings: seq<seq<Event>>, ps: seq<seq<Event>>, lives: seq<seq<Event>>, opening: seq<Event>, race: seq<Event>,
    ids: seq<string>, id: string)
    requires Tagged(openings, ids) && Tagged(ps, ids) && Tagged(lives, ids) && Distinct(ids)
    requires IsInterleaving(openings, opening) && IsInterleaving(ps, race)
    requires forall i :: 0 <= i < |ids| ==> lives[i] == openings[i] + ps[i]
    ensures OfCall(opening, id) + OfCall(race, id) == OfCall(Flatten(lives), id)
  {
    OfCallInRace(openings, opening, ids, id);
    OfCallInRace(ps, race, ids, id);
    FlattenIsInterleaving(lives);
    OfCallInRace(lives, Flatten(lives), ids, id);
    if id in ids {
      var i :| 0 <= i < |ids| && ids[i] == id;
    }
  }

  lemma RepliesCarryNothing(before: seq<Event>, race: seq<Event>, replies: seq<Message>, id: string)
    ensures OfCall(before + race + Pairs(replies), id) == OfCall(before, id) + OfCall(race, id)
  {
    OfCallConcat(before, race, id);
    OfCallConcat(before + race, Pairs(replies), id);
    OfCallInPairs(replies, id);
  }

  lemma OwnInParallel(
    tools: seq<Tool>, calls: seq<ToolCall>, envs: seq<CallEnv>, schedule: seq<nat>, id: string)
    requires |calls| == |envs| && Distinct(Ids(calls[..Reached(envs)]))
    ensures SeesLives(ParallelBatch(tools, calls, envs, schedule).events, Lives(tools, calls, envs, Reached(envs)), id)
  {
    var n := Reached(envs);
    var openings, lives := Openings(tools, calls, envs, n), Lives(tools, calls, envs, n);
    var opening, race := PreparationEvents(tools, calls, envs, n), Race(Launches(tools, calls, envs, n), schedule);
    RepliesCarryNothing(opening, race, Replies(Outcomes(tools, calls, envs, n)), id);
    PartsTagged(tools, calls, envs, n);
    PreparationIsFlat(tools, calls, envs, n);
    FlattenIsInterleaving(openings);
    RaceInterleavesProcesses(tools, calls, envs, n, schedule);
    TracksProject(openings, Processes(tools, calls, envs, n), lives, opening, race, Ids(calls[..n]), id);
  }

  /** Whatever the mode and the schedule, an id sees the events of the call that carries it. */
  lemma OwnEvents(
    tools: seq<Tool>, mode: Mode, calls: seq<ToolCall>, envs: seq<CallEnv>, schedule: seq<nat>, id: string)
    requires |calls| == |envs| && Distinct(Ids(calls))
    ensures var own := OfCall(ExecuteBatch(tools, mode, calls, envs, schedule).events, id);
            (forall i :: 0 <= i < Reached(envs) && calls[i].id == id ==> own == Life(tools, calls[i], envs[i])) &&
            (id !in Ids(calls[..Reached(envs)]) ==> own == [])
  {
    var n := Reached(envs);
    assert Distinct(Ids(calls[..n])) by {
      forall a, b | 0 <= a < b < n ensures Ids(calls[..n])[a] != Ids(calls[..n])[b] {
        assert Ids(calls[..n])[a] == Ids(calls)[a] && Ids(calls[..n])[b] == Ids(calls)[b];
      }
    }
    if RunsSequentially(tools, mode, calls) {
      SequenceIsFlat(tools, calls, envs, n, id);
    } else {
      OwnInParallel(tools, calls, envs, schedule, id);
    }
    PartsTagged(tools, calls, envs, n);
    FlattenIsInterleaving(Lives(tools, calls, envs, n));
    OfCallInRace(Lives(tools, calls, envs, n), Flatten(Lives(tools, calls, envs, n)), Ids(calls[..n]), id);
    forall i | 0 <= i < n && calls[i].id == id
      ensures OfCall(ExecuteBatch(tools, mode, calls, envs, schedule).events, id) == Life(tools, calls[i], envs[i])
    {
      assert Ids(calls[..n])[i] == id;
    }
  }

  lemma NotAmongEarlier(calls: seq<ToolCall>, n: nat, i: nat)
    requires Distinct(Ids(calls)) && n <= i < |calls|
    ensures calls[i].id !in Ids(calls[..n])
  {
    forall j | 0 <= j < n ensures Ids(calls[..n])[j] != calls[i].id {
      assert Ids(calls)[j] != Ids(calls)[i];
    }
  }

  /**
   * In either mode and under every schedule, a call that is reached is started once, updated only in
   * between, and ended once; a call that is not reached leaves no trace.
   */
  lemma EachCallLivesOnce(
    tools: seq<Tool>, mode: Mode, calls: seq<ToolCall>, envs: seq<CallEnv>, schedule: seq<nat>, i: nat)
    requires |calls| == |envs| && Distinct(Ids(calls)) && i < |calls|
    ensures var own := OfCall(ExecuteBatch(tools, mode, calls, envs, schedule).events, calls[i].id);
            if i < Reached(envs) then own == Life(tools, calls[i], envs[i]) && IsLife(own, calls[i]) else own == []
  {
    OwnEvents(tools, mode, calls, envs, schedule, calls[i].id);
    if i < Reached(envs) {
      LifeIsLife(tools, calls[i], envs[i]);
    } else {
      NotAmongEarlier(calls, Reached(envs), i);
    }
  }

  /** Nothing but the reached calls' own events carries a call id. */
  lemma {:induction false} OfCallPrefix(t: seq<Event>, k: nat, id: string)
    requires k <= |t|
    ensures OfCall(t[..k], id) <= OfCall(t, id)
    decreases |t| - k
  {
    if k == |t| {
      assert t[..k] == t;
    } else {
      OfCallPrefix(t, k + 1, id);
      assert t[..k + 1][..k] == t[..k];
    }
  }

  lemma OwnEventCounts(t: seq<Event>, i: nat)
    requires i < |t| && t[i].IsTool()
    ensures OfCall(t[..i + 1], t[i].call.id) == OfCall(t[..i], t[i].call.id) + [t[i]]
  {
    assert t[..i + 1][..i] == t[..i];
  }

  /** An event that follows another of its id is not the first of them. */
  lemma LaterEventPlace(t: seq<Event>, i: nat, j: nat) returns (k: nat)
    requires i < j < |t| && t[i].IsTool() && t[j].IsTool() && t[i].call.id == t[j].call.id
    ensures 0 < k < |OfCall(t, t[j].call.id)| && OfCall(t, t[j].call.id)[k] == t[j]
  {
    var id := t[j].call.id;
    k := |OfCall(t[..j], id)|;
    OwnEventCounts(t, i);
    assert t[..j][..i + 1] == t[..i + 1];
    OfCallPrefix(t[..j], i + 1, id);
    OwnEventCounts(t, j);
    OfCallPrefix(t, j + 1, id);
  }

  /** A start that is preceded by an end of the same id belongs to no single life. */
  lemma NoStartAfterEnd(t: seq<Event>, call: ToolCall, i: nat, j: nat)
    requires i < j < |t| && t[i].ToolEnd? && t[j].ToolStart? && t[i].call.id == t[j].call.id
    ensures !IsLife(OfCall(t, t[j].call.id), call)
  {
    var k := LaterEventPlace(t, i, j);
  }

  /** If every started id lives one life, none is restarted. */
  lemma LivesAreNotRestarted(t: seq<Event>)
    requires forall e :: e in t && e.ToolStart? ==> HasLife(OfCall(t, e.call.id))
    ensures NeverRestarted(t)
  {
    forall i, j | 0 <= i < j < |t| && t[i].ToolEnd? && t[j].ToolStart?
      ensures t[i].call.id != t[j].call.id
    {
      var call :| IsLife(OfCall(t, t[j].call.id), call);
      if t[i].call.id == t[j].call.id {
        NoStartAfterEnd(t, call, i, j);
      }
    }
  }

  lemma OwnIsOneLife(
    tools: seq<Tool>, mode: Mode, calls: seq<ToolCall>, envs: seq<CallEnv>, schedule: seq<nat>, id: string)
    requires |calls| == |envs| && Distinct(Ids(calls))
    ensures var own := OfCall(ExecuteBatch(tools, mode, calls, envs, schedule).events, id); own == [] || HasLife(own)
  {
    OwnEvents(tools, mode, calls, envs, schedule, id);
    if i :| 0 <= i < Reached(envs) && calls[i].id == id {
      LifeIsLife(tools, calls[i], envs[i]);
    } else {
      assert forall i :: 0 <= i < Reached(envs) ==> Ids(calls[..Reached(envs)])[i] == calls[i].id;
    }
  }

  lemma BatchNeverRestarts(
    tools: seq<Tool>, mode: Mode, calls: seq<ToolCall>, envs: seq<CallEnv>, schedule: seq<nat>, t: seq<Event>)
    requires |calls| == |envs| && Distinct(Ids(calls)) && t == ExecuteBatch(tools, mode, calls, envs, schedule).events
    ensures NeverRestarted(t)
  {
    forall e | e in t && e.ToolStart? ensures HasLife(OfCall(t, e.call.id)) {
      OwnIsOneLife(tools, mode, calls, envs, schedule, e.call.id);
      OfCallMembers(t, e.call.id);
    }
    LivesAreNotRestarted(t);
  }

  /** At every moment of a batch the pending set holds the calls started and not yet ended. */
  lemma PendingDuringBatch(
    tools: seq<Tool>, mode: Mode, calls: seq<ToolCall>, envs: seq<CallEnv>, schedule: seq<nat>, v: View, k: nat)
    requires |calls| == |envs| && Distinct(Ids(calls)) && v.pending == {}
    requires k <= |ExecuteBatch(tools, mode, calls, envs, schedule).events|
    ensures var seen := ExecuteBatch(tools, mode, calls, envs, schedule).events[..k];
            ReduceAll(v, seen).pending == StartedIds(seen) - EndedIds(seen)
  {
    var t := ExecuteBatch(tools, mode, calls, envs, schedule).events;
    BatchNeverRestarts(tools, mode, calls, envs, schedule, t);
    PendingExact(v, t);
  }
}
