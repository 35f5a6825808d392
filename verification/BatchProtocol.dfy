/** A tool batch as a listener sees it: it obeys the protocol and completes exactly its replies. */
module BatchProtocol {
  import opened Options
  import opened AgentTypes
  import opened ToolBatch
  import opened TraceGrammar
  import opened BatchTheorems

  // ---------- Protocol ----------

  /** The ids of the processes that are still running, each as often as it runs. */
  function Live(ps: seq<seq<Event>>, ids: seq<string>): multiset<string>
    requires |ps| == |ids|
  {
    if ps == [] then multiset{}
    else Live(ps[1..], ids[1..]) + if ps[0] != [] then multiset{ids[0]} else multiset{}
  }

  lemma TakenFromEither(m: multiset<string>, added: multiset<string>, id: string)
    requires id in m
    ensures m - multiset{id} + added == m + added - multiset{id}
  {
  }

  lemma {:induction false} LiveStep(ps: seq<seq<Event>>, ids: seq<string>, p: nat)
    requires |ps| == |ids| && CanStep(ps, p)
    ensures ids[p] in Live(ps, ids)
    ensures Live(StepOf(ps, p), ids) == if |ps[p]| == 1 then Live(ps, ids) - multiset{ids[p]} else Live(ps, ids)
  {
    if p > 0 {
      LiveStep(ps[1..], ids[1..], p - 1);
      TakenFromEither(Live(ps[1..], ids[1..]), if ps[0] != [] then multiset{ids[0]} else multiset{}, ids[p]);
      assert StepOf(ps, p)[1..] == StepOf(ps[1..], p - 1);
    } else {
      assert StepOf(ps, p)[1..] == ps[1..];
    }
  }

  lemma {:induction false} LiveDone(ps: seq<seq<Event>>, ids: seq<string>)
    requires |ps| == |ids| && AllDone(ps)
    ensures Live(ps, ids) == multiset{}
  {
    if ps != [] {
      LiveDone(ps[1..], ids[1..]);
    }
  }

  lemma {:induction false} LiveSnoc(ps: seq<seq<Event>>, ids: seq<string>, last: seq<Event>, id: string)
    requires |ps| == |ids|
    ensures Live(ps + [last], ids + [id]) == Live(ps, ids) + if last != [] then multiset{id} else multiset{}
  {
    if ps == [] {
      assert Live(([last])[1..], ([id])[1..]) == multiset{};
    } else {
      LiveSnoc(ps[1..], ids[1..], last, id);
      assert (ps + [last])[1..] == ps[1..] + [last] && (ids + [id])[1..] == ids[1..] + [id];
    }
  }

  /** What a running call emits: any number of updates, and its end as the last event. */
  ghost predicate EndsOnce(process: seq<Event>, id: string) {
    forall k :: 0 <= k < |process| ==>
      (if k == |process| - 1 then process[k].ToolEnd? else process[k].ToolUpdate?) && process[k].call.id == id
  }

  ghost predicate AllEndOnce(ps: seq<seq<Event>>, ids: seq<string>) {
    |ps| == |ids| && forall j :: 0 <= j < |ps| ==> EndsOnce(ps[j], ids[j])
  }

  lemma RaceStep(ps: seq<seq<Event>>, ids: seq<string>, p: nat)
    requires AllEndOnce(ps, ids) && CanStep(ps, p)
    ensures AllEndOnce(StepOf(ps, p), ids)
    ensures Scan(InTurn(None, Live(ps, ids)), [ps[p][0]]) == InTurn(None, Live(StepOf(ps, p), ids))
  {
    assert EndsOnce(ps[p], ids[p]);
    assert EndsOnce(StepOf(ps, p)[p], ids[p]);
    LiveStep(ps, ids, p);
    ScanOne(InTurn(None, Live(ps, ids)), ps[p][0]);
  }

  lemma ScanFirst(p: Phase, t: seq<Event>)
    requires t != []
    ensures Scan(p, t) == Scan(Scan(p, [t[0]]), t[1..])
  {
    assert t == [t[0]] + t[1..];
    ScanConcat(p, [t[0]], t[1..]);
  }

  lemma {:induction false} RaceObeysProtocol(ps: seq<seq<Event>>, ids: seq<string>, t: seq<Event>)
    requires IsInterleaving(ps, t) && AllEndOnce(ps, ids)
    ensures Scan(InTurn(None, Live(ps, ids)), t) == QUIET
    decreases |t|
  {
    if t == [] {
      LiveDone(ps, ids);
    } else {
      var p: nat :| CanStep(ps, p) && ps[p][0] == t[0] && IsInterleaving(StepOf(ps, p), t[1..]);
      RaceStep(ps, ids, p);
      RaceObeysProtocol(StepOf(ps, p), ids, t[1..]);
      ScanFirst(InTurn(None, Live(ps, ids)), t);
    }
  }

  lemma RemainingEndsOnce(tools: seq<Tool>, call: ToolCall, env: CallEnv)
    ensures EndsOnce(Remaining(tools, call, env), call.id)
  {
    assert Outcome(tools, call, env).call == call;
  }

  lemma ScanStartEnd(f: Finalized, running: multiset<string>)
    ensures Scan(InTurn(None, running), [ToolStart(f.call)]) == InTurn(None, running + multiset{f.call.id})
    ensures Scan(InTurn(None, running), [ToolStart(f.call)] + [End(f)]) == InTurn(None, running)
  {
    ScanOne(InTurn(None, running), ToolStart(f.call));
    ScanOne(InTurn(None, running + multiset{f.call.id}), End(f));
    ScanConcat(InTurn(None, running), [ToolStart(f.call)], [End(f)]);
    assert running + multiset{f.call.id} - multiset{f.call.id} == running;
  }

  lemma ScanOpening(tools: seq<Tool>, call: ToolCall, env: CallEnv, running: multiset<string>)
    ensures Scan(InTurn(None, running), Opening(tools, call, env)) ==
            InTurn(None, running + if Remaining(tools, call, env) != [] then multiset{call.id} else multiset{})
  {
    ScanStartEnd(Outcome(tools, call, env), running);
    assert [ToolStart(call)] + [] == [ToolStart(call)];
  }

  /** After these events exactly the calls with something left to show are running. */
  ghost predicate LeavesRunning(events: seq<Event>, ps: seq<seq<Event>>, ids: seq<string>) {
    |ps| == |ids| && Scan(QUIET, events) == InTurn(None, Live(ps, ids))
  }

  /** Reading this opening, whatever else runs, leaves its process running if that has something left to show. */
  ghost predicate Leaves(opening: seq<Event>, process: seq<Event>, id: string) {
    forall running: multiset<string> ::
      Scan(InTurn(None, running), opening) ==
      InTurn(None, running + if process != [] then multiset{id} else multiset{})
  }

  lemma OneMoreLeaves(
    events: seq<Event>, ps: seq<seq<Event>>, ids: seq<string>, opening: seq<Event>, process: seq<Event>, id: string,
    more: seq<Event>, morePs: seq<seq<Event>>, moreIds: seq<string>)
    requires LeavesRunning(events, ps, ids) && Leaves(opening, process, id)
    requires more == events + opening && morePs == ps + [process] && moreIds == ids + [id]
    ensures LeavesRunning(more, morePs, moreIds)
  {
    ScanConcat(QUIET, events, opening);
    LiveSnoc(ps, ids, process, id);
  }

  lemma {:induction false} OpeningsLeave(openings: seq<seq<Event>>, ps: seq<seq<Event>>, ids: seq<string>)
    requires |openings| == |ps| == |ids| && forall i :: 0 <= i < |ps| ==> Leaves(openings[i], ps[i], ids[i])
    ensures LeavesRunning(Flatten(openings), ps, ids)
  {
    if openings == [] {
      NothingRuns(openings, ps, ids);
    } else {
      var n := |openings| - 1;
      OpeningsLeave(openings[..n], ps[..n], ids[..n]);
      FlattenSnoc(openings[..n], openings[n]);
      assert openings == openings[..n] + [openings[n]];
      OneMoreLeaves(
        Flatten(openings[..n]), ps[..n], ids[..n], openings[n], ps[n], ids[n], Flatten(openings), ps, ids);
    }
  }

  lemma NothingRuns(openings: seq<seq<Event>>, ps: seq<seq<Event>>, ids: seq<string>)
    requires openings == [] && ps == [] && ids == []
    ensures LeavesRunning(Flatten(openings), ps, ids)
  {
  }

  lemma OpeningLeaves(tools: seq<Tool>, call: ToolCall, env: CallEnv)
    ensures Leaves(Opening(tools, call, env), Remaining(tools, call, env), call.id)
  {
    forall running: multiset<string>
      ensures Scan(InTurn(None, running), Opening(tools, call, env)) ==
              InTurn(None, running + if Remaining(tools, call, env) != [] then multiset{call.id} else multiset{})
    {
      ScanOpening(tools, call, env, running);
    }
  }

  lemma ScanPreparation(tools: seq<Tool>, calls: seq<ToolCall>, envs: seq<CallEnv>, n: nat)
    requires n <= |calls| == |envs|
    ensures LeavesRunning(PreparationEvents(tools, calls, envs, n), Processes(tools, calls, envs, n), Ids(calls[..n]))
  {
    var openings, ps, ids := Openings(tools, calls, envs, n), Processes(tools, calls, envs, n), Ids(calls[..n]);
    forall i | 0 <= i < n ensures Leaves(openings[i], ps[i], ids[i]) {
      OpeningLeaves(tools, calls[i], envs[i]);
    }
    OpeningsLeave(openings, ps, ids);
    PreparationIsFlat(tools, calls, envs, n);
  }

  lemma ScanParallel(tools: seq<Tool>, calls: seq<ToolCall>, envs: seq<CallEnv>, schedule: seq<nat>)
    requires |calls| == |envs|
    ensures Scan(QUIET, ParallelBatch(tools, calls, envs, schedule).events) == QUIET
  {
    var n := Reached(envs);
    var opening, ps := PreparationEvents(tools, calls, envs, n), Processes(tools, calls, envs, n);
    var replies := Replies(Outcomes(tools, calls, envs, n));
    ScanPreparation(tools, calls, envs, n);
    forall j | 0 <= j < n ensures EndsOnce(ps[j], Ids(calls[..n])[j]) {
      RemainingEndsOnce(tools, calls[j], envs[j]);
    }
    var race := Race(Launches(tools, calls, envs, n), schedule);
    RaceInterleavesProcesses(tools, calls, envs, n, schedule);
    RaceObeysProtocol(ps, Ids(calls[..n]), race);
    ScanPairs(replies);
    ScanConcat(QUIET, opening, race);
    QuietConcat(opening + race, Pairs(replies));
  }

  lemma ScanPair(m: Message)
    ensures Scan(QUIET, Pair(m)) == QUIET
  {
    ScanPairs([m]);
    assert [m][..0] == [] && Pairs([m]) == [] + Pair(m);
  }

  lemma ScanWholeCall(tools: seq<Tool>, call: ToolCall, env: CallEnv)
    ensures Scan(QUIET, WholeCall(tools, call, env)) == QUIET
  {
    var opening, process := Opening(tools, call, env), Remaining(tools, call, env);
    var reply := Reply(Outcome(tools, call, env));
    ScanOpening(tools, call, env, multiset{});
    RemainingEndsOnce(tools, call, env);
    assert [process][1..] == [] && Flatten([process][1..]) == [] && process + [] == process;
    FlattenIsInterleaving([process]);
    assert Live([process][1..], [call.id][1..]) == multiset{};
    RaceObeysProtocol([process], [call.id], process);
    ScanConcat(QUIET, opening, process);
    ScanPair(reply);
    QuietConcat(opening + process, Pair(reply));
  }

  ghost predicate KeepsQuiet(events: seq<Event>) {
    Scan(QUIET, events) == QUIET
  }

  lemma {:induction false} QuietTracks(tracks: seq<seq<Event>>)
    requires forall i :: 0 <= i < |tracks| ==> KeepsQuiet(tracks[i])
    ensures KeepsQuiet(Flatten(tracks))
  {
    if tracks != [] {
      QuietTracks(tracks[1..]);
      QuietConcat(tracks[0], Flatten(tracks[1..]));
    }
  }

  lemma ScanSequence(tools: seq<Tool>, calls: seq<ToolCall>, envs: seq<CallEnv>, n: nat)
    requires n <= |calls| == |envs|
    ensures KeepsQuiet(SequentialEvents(tools, calls, envs, n))
  {
    var tracks := Tracks(tools, calls, envs, n);
    forall i | 0 <= i < n ensures KeepsQuiet(tracks[i]) {
      ScanWholeCall(tools, calls[i], envs[i]);
    }
    QuietTracks(tracks);
    SequentialFlat(tools, calls, envs, n);
  }

  lemma {:induction false} ScanTruncated(calls: seq<ToolCall>)
    ensures Scan(QUIET, TruncatedEvents(calls)) == QUIET
  {
    if calls != [] {
      var call := calls[|calls| - 1];
      var f := TruncatedOutcome(call);
      ScanTruncated(calls[..|calls| - 1]);
      ScanStartEnd(f, multiset{});
      assert [ToolStart(call), End(f)] == [ToolStart(call)] + [End(f)];
      ScanPair(Reply(f));
      QuietConcat([ToolStart(call), End(f)], Pair(Reply(f)));
      QuietConcat(TruncatedEvents(calls[..|calls| - 1]), [ToolStart(call), End(f)] + Pair(Reply(f)));
    }
  }

  /** A batch begins and ends with no message open and no tool running, ids repeated or not. */
  lemma BatchObeysProtocol(tools: seq<Tool>, mode: Mode, calls: seq<ToolCall>, envs: seq<CallEnv>, schedule: seq<nat>)
    requires |calls| == |envs|
    ensures Scan(QUIET, ExecuteBatch(tools, mode, calls, envs, schedule).events) == QUIET
  {
    if RunsSequentially(tools, mode, calls) {
      ScanSequence(tools, calls, envs, Reached(envs));
    } else {
      ScanParallel(tools, calls, envs, schedule);
    }
  }

  // ---------- Completed messages ----------

  lemma {:induction false} ToolsCompleteNothing(t: seq<Event>)
    requires forall e :: e in t ==> e.IsTool()
    ensures Completed(t) == []
  {
    if t != [] {
      ToolsCompleteNothing(t[..|t| - 1]);
      assert t[|t| - 1] in t;
    }
  }

  lemma CompletedPair(m: Message)
    ensures Completed(Pair(m)) == [m]
  {
    CompletedPairs([m]);
    assert [m][..0] == [] && Pairs([m]) == [] + Pair(m);
  }

  lemma CompletedWholeCall(tools: seq<Tool>, call: ToolCall, env: CallEnv)
    ensures Completed(WholeCall(tools, call, env)) == [Reply(Outcome(tools, call, env))]
  {
    var life, reply := Life(tools, call, env), Reply(Outcome(tools, call, env));
    CompletedConcat(life, Pair(reply));
    LifeIsLife(tools, call, env);
    ToolsCompleteNothing(life);
    CompletedPair(reply);
  }

  lemma RepliesSnoc(fs: seq<Finalized>, f: Finalized)
    ensures Replies(fs + [f]) == Replies(fs) + [Reply(f)]
  {
    assert (fs + [f])[..|fs|] == fs;
  }

  lemma OneMoreReply(tools: seq<Tool>, call: ToolCall, env: CallEnv, events: seq<Event>, fs: seq<Finalized>)
    requires Completed(events) == Replies(fs)
    ensures Completed(events + WholeCall(tools, call, env)) == Replies(fs + [Outcome(tools, call, env)])
  {
    CompletedConcat(events, WholeCall(tools, call, env));
    CompletedWholeCall(tools, call, env);
    RepliesSnoc(fs, Outcome(tools, call, env));
  }

  lemma {:induction false} CompletedSequence(tools: seq<Tool>, calls: seq<ToolCall>, envs: seq<CallEnv>, n: nat)
    requires n <= |calls| == |envs|
    ensures Completed(SequentialEvents(tools, calls, envs, n)) == Replies(Outcomes(tools, calls, envs, n))
  {
    if n > 0 {
      var call, env := calls[n - 1], envs[n - 1];
      CompletedSequence(tools, calls, envs, n - 1);
      OneMoreReply(tools, call, env, SequentialEvents(tools, calls, envs, n - 1), Outcomes(tools, calls, envs, n - 1));
    }
  }

  lemma InterleavedToolsCompleteNothing(ps: seq<seq<Event>>, ids: seq<string>, t: seq<Event>)
    requires IsInterleaving(ps, t) && Tagged(ps, ids)
    ensures Completed(t) == []
  {
    InterleavingMembers(ps, t);
    ToolsCompleteNothing(t);
  }

  lemma PreparationCompletesNothing(tools: seq<Tool>, calls: seq<ToolCall>, envs: seq<CallEnv>, n: nat)
    requires n <= |calls| == |envs|
    ensures Completed(PreparationEvents(tools, calls, envs, n)) == []
  {
    var openings := Openings(tools, calls, envs, n);
    PartsTagged(tools, calls, envs, n);
    FlattenIsInterleaving(openings);
    InterleavedToolsCompleteNothing(openings, Ids(calls[..n]), Flatten(openings));
    PreparationIsFlat(tools, calls, envs, n);
  }

  lemma RaceCompletesNothing(tools: seq<Tool>, calls: seq<ToolCall>, envs: seq<CallEnv>, n: nat, schedule: seq<nat>)
    requires n <= |calls| == |envs|
    ensures Completed(Race(Launches(tools, calls, envs, n), schedule)) == []
  {
    var ps, race := Processes(tools, calls, envs, n), Race(Launches(tools, calls, envs, n), schedule);
    PartsTagged(tools, calls, envs, n);
    RaceInterleavesProcesses(tools, calls, envs, n, schedule);
    InterleavedToolsCompleteNothing(ps, Ids(calls[..n]), race);
  }

  lemma CompletedParallel(tools: seq<Tool>, calls: seq<ToolCall>, envs: seq<CallEnv>, schedule: seq<nat>)
    requires |calls| == |envs|
    ensures var batch := ParallelBatch(tools, calls, envs, schedule); Completed(batch.events) == batch.results
  {
    var n := Reached(envs);
    var opening, replies := PreparationEvents(tools, calls, envs, n), Replies(Outcomes(tools, calls, envs, n));
    var race := Race(Launches(tools, calls, envs, n), schedule);
    PreparationCompletesNothing(tools, calls, envs, n);
    RaceCompletesNothing(tools, calls, envs, n, schedule);
    CompletedPairs(replies);
    CompletedConcat(opening, race);
    CompletedConcat(opening + race, Pairs(replies));
  }

  function Refusal(call: ToolCall): seq<Event> {
    [ToolStart(call), End(TruncatedOutcome(call))] + Pair(Reply(TruncatedOutcome(call)))
  }

  lemma CompletedRefusal(call: ToolCall)
    ensures Completed(Refusal(call)) == [Reply(TruncatedOutcome(call))]
  {
    var f := TruncatedOutcome(call);
    ToolsCompleteNothing([ToolStart(call), End(f)]);
    CompletedPair(Reply(f));
    CompletedConcat([ToolStart(call), End(f)], Pair(Reply(f)));
  }

  lemma OneMoreTruncated(calls: seq<ToolCall>)
    requires calls != []
    ensures var init, call := calls[..|calls| - 1], calls[|calls| - 1];
            TruncatedEvents(calls) == TruncatedEvents(init) + Refusal(call) &&
            TruncatedBatch(calls).results == TruncatedBatch(init).results + [Reply(TruncatedOutcome(call))]
  {
  }

  lemma {:induction false} CompletedTruncated(calls: seq<ToolCall>)
    ensures Completed(TruncatedEvents(calls)) == TruncatedBatch(calls).results
  {
    if calls != [] {
      var init, call := calls[..|calls| - 1], calls[|calls| - 1];
      CompletedTruncated(init);
      CompletedRefusal(call);
      CompletedConcat(TruncatedEvents(init), Refusal(call));
      OneMoreTruncated(calls);
    }
  }

  lemma BatchCompletesItsReplies(
    tools: seq<Tool>, mode: Mode, calls: seq<ToolCall>, envs: seq<CallEnv>, schedule: seq<nat>)
    requires |calls| == |envs|
    ensures var batch := ExecuteBatch(tools, mode, calls, envs, schedule); Completed(batch.events) == batch.results
  {
    if RunsSequentially(tools, mode, calls) {
      CompletedSequence(tools, calls, envs, Reached(envs));
    } else {
      CompletedParallel(tools, calls, envs, schedule);
    }
  }

  // ---------- Parallel against sequential ----------

  function Bag(ps: seq<seq<Event>>): multiset<Event> {
    if ps == [] then multiset{} else multiset(ps[0]) + Bag(ps[1..])
  }

  lemma {:induction false} BagStep(ps: seq<seq<Event>>, p: nat)
    requires CanStep(ps, p)
    ensures Bag(ps) == multiset{ps[p][0]} + Bag(StepOf(ps, p))
  {
    if p == 0 {
      assert ps[0] == [ps[0][0]] + ps[0][1..];
      assert StepOf(ps, 0)[1..] == ps[1..];
    } else {
      BagStep(ps[1..], p - 1);
      assert StepOf(ps, p)[1..] == StepOf(ps[1..], p - 1);
    }
  }

  lemma {:induction false} BagDone(ps: seq<seq<Event>>)
    requires AllDone(ps)
    ensures Bag(ps) == multiset{}
  {
    if ps != [] {
      BagDone(ps[1..]);
    }
  }

  lemma {:induction false} InterleavingBag(ps: seq<seq<Event>>, t: seq<Event>)
    requires IsInterleaving(ps, t)
    ensures multiset(t) == Bag(ps)
    decreases |t|
  {
    if t == [] {
      BagDone(ps);
    } else {
      var p: nat :| CanStep(ps, p) && ps[p][0] == t[0] && IsInterleaving(StepOf(ps, p), t[1..]);
      InterleavingBag(StepOf(ps, p), t[1..]);
      BagStep(ps, p);
      assert t == [t[0]] + t[1..];
    }
  }

  function Join(first: seq<seq<Event>>, second: seq<seq<Event>>): seq<seq<Event>>
    requires |first| == |second|
  {
    seq(|first|, i requires 0 <= i < |first| => first[i] + second[i])
  }

  lemma JoinStep(first: seq<seq<Event>>, second: seq<seq<Event>>, p: nat)
    requires |first| == |second| && CanStep(first, p)
    ensures CanStep(Join(first, second), p) && Join(first, second)[p][0] == first[p][0]
    ensures StepOf(Join(first, second), p) == Join(StepOf(first, p), second)
  {
    assert (first[p] + second[p])[1..] == first[p][1..] + second[p];
  }

  lemma JoinDone(first: seq<seq<Event>>, second: seq<seq<Event>>)
    requires |first| == |second| && AllDone(first)
    ensures Join(first, second) == second
  {
    forall i | 0 <= i < |first| ensures Join(first, second)[i] == second[i] {
      assert first[i] == [] && [] + second[i] == second[i];
    }
  }

  lemma JoinedStep(first: seq<seq<Event>>, second: seq<seq<Event>>, p: nat, e: Event, rest: seq<Event>)
    requires |first| == |second| && CanStep(first, p) && first[p][0] == e
    requires IsInterleaving(Join(StepOf(first, p), second), rest)
    ensures IsInterleaving(Join(first, second), [e] + rest)
  {
    JoinStep(first, second, p);
    StepIsInterleaving(Join(first, second), p, rest);
  }

  /** Interleaving the first halves and then the second halves interleaves the wholes. */
  lemma {:induction false} InterleavingJoin(
    first: seq<seq<Event>>, second: seq<seq<Event>>, s: seq<Event>, t: seq<Event>)
    requires |first| == |second| && IsInterleaving(first, s) && IsInterleaving(second, t)
    ensures IsInterleaving(Join(first, second), s + t)
    decreases |s|
  {
    if s == [] {
      JoinDone(first, second);
      assert s + t == t;
    } else {
      var p: nat :| CanStep(first, p) && first[p][0] == s[0] && IsInterleaving(StepOf(first, p), s[1..]);
      InterleavingJoin(StepOf(first, p), second, s[1..], t);
      JoinedStep(first, second, p, s[0], s[1..] + t);
      assert s + t == [s[0]] + (s[1..] + t);
    }
  }

  function ReplyPairs(fs: seq<Finalized>): seq<seq<Event>> {
    seq(|fs|, i requires 0 <= i < |fs| => Pair(Reply(fs[i])))
  }

  lemma {:induction false} RepliesFlat(fs: seq<Finalized>)
    ensures Pairs(Replies(fs)) == Flatten(ReplyPairs(fs))
  {
    if fs != [] {
      var init, f := fs[..|fs| - 1], fs[|fs| - 1];
      RepliesFlat(init);
      assert Replies(fs)[..|Replies(init)|] == Replies(init);
      FlattenSnoc(ReplyPairs(init), Pair(Reply(f)));
      assert ReplyPairs(fs) == ReplyPairs(init) + [Pair(Reply(f))];
    }
  }

  lemma {:induction false} OutcomesAt(tools: seq<Tool>, calls: seq<ToolCall>, envs: seq<CallEnv>, n: nat)
    requires n <= |calls| == |envs|
    ensures |Outcomes(tools, calls, envs, n)| == n
    ensures forall i :: 0 <= i < n ==> Outcomes(tools, calls, envs, n)[i] == Outcome(tools, calls[i], envs[i])
  {
    if n > 0 {
      OutcomesAt(tools, calls, envs, n - 1);
    }
  }

  lemma TracksAreJoined(tools: seq<Tool>, calls: seq<ToolCall>, envs: seq<CallEnv>, n: nat)
    requires n <= |calls| == |envs|
    ensures |ReplyPairs(Outcomes(tools, calls, envs, n))| == n
    ensures Tracks(tools, calls, envs, n) ==
            Join(Join(Openings(tools, calls, envs, n), Processes(tools, calls, envs, n)),
                 ReplyPairs(Outcomes(tools, calls, envs, n)))
  {
    OutcomesAt(tools, calls, envs, n);
  }

  /**
   * In either mode and under every schedule the batch interleaves one track per reached call, so every
   * call's start, updates, end and reply come whole and in this order.
   */
  lemma BatchInterleavesTracks(
    tools: seq<Tool>, mode: Mode, calls: seq<ToolCall>, envs: seq<CallEnv>, schedule: seq<nat>)
    requires |calls| == |envs|
    ensures IsInterleaving(
              Tracks(tools, calls, envs, Reached(envs)), ExecuteBatch(tools, mode, calls, envs, schedule).events)
  {
    var n := Reached(envs);
    if RunsSequentially(tools, mode, calls) {
      SequentialFlat(tools, calls, envs, n);
      FlattenIsInterleaving(Tracks(tools, calls, envs, n));
    } else {
      var opening, ps := Openings(tools, calls, envs, n), Processes(tools, calls, envs, n);
      var fs := Outcomes(tools, calls, envs, n);
      TracksAreJoined(tools, calls, envs, n);
      PreparationIsFlat(tools, calls, envs, n);
      FlattenIsInterleaving(opening);
      var race := Race(Launches(tools, calls, envs, n), schedule);
      RaceInterleavesProcesses(tools, calls, envs, n, schedule);
      InterleavingJoin(opening, ps, Flatten(opening), race);
      RepliesFlat(fs);
      FlattenIsInterleaving(ReplyPairs(fs));
      InterleavingJoin(Join(opening, ps), ReplyPairs(fs), Flatten(opening) + race, Flatten(ReplyPairs(fs)));
    }
  }

  /**
   * When a call's outcome depends on the call alone, running in parallel changes nothing but the order of
   * the events: the replies, their order, the decision to stop and the executed calls are the same.
   */
  lemma ModesAgree(tools: seq<Tool>, calls: seq<ToolCall>, answer: ToolCall -> CallEnv, schedule: seq<nat>, mode: Mode)
    ensures var envs := seq(|calls|, i requires 0 <= i < |calls| => answer(calls[i]));
            var p, s := ExecuteBatch(tools, mode, calls, envs, schedule), SequentialBatch(tools, calls, envs);
            p.results == s.results && p.terminate == s.terminate && p.executed == s.executed &&
            Completed(p.events) == Completed(s.events) && multiset(p.events) == multiset(s.events)
  {
    var envs := seq(|calls|, i requires 0 <= i < |calls| => answer(calls[i]));
    var tracks := Tracks(tools, calls, envs, Reached(envs));
    var p, s := ExecuteBatch(tools, mode, calls, envs, schedule), ExecuteBatch(tools, Sequential, calls, envs, []);
    BatchCompletesItsReplies(tools, mode, calls, envs, schedule);
    BatchCompletesItsReplies(tools, Sequential, calls, envs, []);
    BatchInterleavesTracks(tools, mode, calls, envs, schedule);
    BatchInterleavesTracks(tools, Sequential, calls, envs, []);
    InterleavingBag(tracks, p.events);
    InterleavingBag(tracks, s.events);
  }
}
