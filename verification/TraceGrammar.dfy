/** The event protocol a listener may rely on, as an automaton over traces. */
module TraceGrammar {
  import opened Options
  import opened AgentTypes

  /**
   * Inside a turn at most one message is open, and only while no tool is running. `running` counts the
   * started and not yet ended executions of each call id, so repeated ids are told apart by number.
   */
  datatype Phase =
    | Before
    | Started
    | InTurn(open: Option<Message>, running: multiset<string>)
    | Between
    | Ended
    | Broken

  const QUIET: Phase := InTurn(None, multiset{})

  /** An assistant message may close as a later version of itself; any other closes as it opened. */
  predicate Closes(open: Message, end: Message) {
    if open.FromAssistant? then end.FromAssistant? else open == end
  }

  function AdvanceTurn(open: Option<Message>, running: multiset<string>, e: Event): Phase {
    match e
    case MessageStart(m) => if open.None? && running == multiset{} then InTurn(Some(m), running) else Broken
    case MessageUpdate(m) =>
      if open.Some? && open.value.FromAssistant? && m.FromAssistant? then InTurn(open, running) else Broken
    case MessageEnd(m) => if open.Some? && Closes(open.value, m) then InTurn(None, running) else Broken
    case ToolStart(call) => if open.None? then InTurn(None, running + multiset{call.id}) else Broken
    case ToolUpdate(call, _) => if open.None? && call.id in running then InTurn(None, running) else Broken
    case ToolEnd(call, _, _) =>
      if open.None? && call.id in running then InTurn(None, running - multiset{call.id}) else Broken
    case TurnEnd(_, _) => if open.None? && running == multiset{} then Between else Broken
    case _ => Broken
  }

  function Advance(p: Phase, e: Event): Phase {
    match p
    case Before => if e.AgentStart? then Started else Broken
    case Started => if e.TurnStart? then QUIET else Broken
    case InTurn(open, running) => AdvanceTurn(open, running, e)
    case Between => if e.TurnStart? then QUIET else if e.AgentEnd? then Ended else Broken
    case _ => Broken
  }

  function Scan(p: Phase, trace: seq<Event>): Phase {
    if trace == [] then p else Advance(Scan(p, trace[..|trace| - 1]), trace[|trace| - 1])
  }

  /** agent_start (turn_start body turn_end)+ agent_end */
  predicate Accepts(trace: seq<Event>) {
    Scan(Before, trace) == Ended
  }

  lemma {:induction false} ScanConcat(p: Phase, a: seq<Event>, b: seq<Event>)
    ensures Scan(p, a + b) == Scan(Scan(p, a), b)
  {
    if b == [] {
      assert a + b == a;
    } else {
      var init := b[..|b| - 1];
      assert (a + b)[..|a + b| - 1] == a + init;
      ScanConcat(p, a, init);
    }
  }

  lemma ScanOne(p: Phase, e: Event)
    ensures Scan(p, [e]) == Advance(p, e)
  {
    assert [e][..0] == [];
    assert Scan(p, [e][..0]) == p;
  }

  lemma QuietConcat(a: seq<Event>, b: seq<Event>)
    requires Scan(QUIET, a) == QUIET && Scan(QUIET, b) == QUIET
    ensures Scan(QUIET, a + b) == QUIET
  {
    ScanConcat(QUIET, a, b);
  }

  /** Announced messages leave a quiet turn quiet. */
  lemma {:induction false} ScanPairs(ms: seq<Message>)
    ensures Scan(QUIET, Pairs(ms)) == QUIET
  {
    if ms != [] {
      var init, m := ms[..|ms| - 1], ms[|ms| - 1];
      ScanPairs(init);
      ScanConcat(QUIET, Pairs(init), Pair(m));
      ScanConcat(QUIET, [MessageStart(m)], [MessageEnd(m)]);
      assert Pair(m) == [MessageStart(m)] + [MessageEnd(m)];
      ScanOne(QUIET, MessageStart(m));
      ScanOne(InTurn(Some(m), multiset{}), MessageEnd(m));
    }
  }

  /** A trace that has broken the protocol stays broken, and nothing may follow its end. */
  lemma {:induction false} AcceptedPrefix(trace: seq<Event>, k: nat)
    requires k < |trace| && Accepts(trace)
    ensures var p := Scan(Before, trace[..k]);
            p != Broken && p != Ended && Advance(p, trace[k]) == Scan(Before, trace[..k + 1])
    decreases |trace| - k
  {
    assert trace[..k + 1][..k] == trace[..k];
    if k + 1 == |trace| {
      assert trace[..k + 1] == trace;
    } else {
      AcceptedPrefix(trace, k + 1);
    }
  }

  lemma Outermost(p: Phase, e: Event)
    requires Advance(p, e) != Broken
    ensures Advance(p, e) != Before
    ensures e.AgentStart? <==> p == Before
    ensures e.AgentEnd? <==> Advance(p, e) == Ended
  {
  }

  lemma AcceptedPlace(trace: seq<Event>, k: nat)
    requires Accepts(trace) && k < |trace|
    ensures trace[k].AgentStart? <==> k == 0
    ensures trace[k].AgentEnd? <==> k == |trace| - 1
  {
    AcceptedPrefix(trace, k);
    if k + 1 < |trace| {
      AcceptedPrefix(trace, k + 1);
    } else {
      assert trace[..k + 1] == trace;
    }
    Outermost(Scan(Before, trace[..k]), trace[k]);
    if k > 0 {
      AcceptedPrefix(trace, k - 1);
      Outermost(Scan(Before, trace[..k - 1]), trace[k - 1]);
    }
  }

  /** What acceptance buys a listener: the start comes first, the end last, and neither comes twice. */
  lemma AcceptedTraceIsBracketed(trace: seq<Event>)
    requires Accepts(trace)
    ensures |trace| >= 4
    ensures forall k :: 0 <= k < |trace| ==>
            (trace[k].AgentStart? <==> k == 0) && (trace[k].AgentEnd? <==> k == |trace| - 1)
  {
    forall k | 0 <= k < |trace|
      ensures trace[k].AgentStart? <==> k == 0
      ensures trace[k].AgentEnd? <==> k == |trace| - 1
    {
      AcceptedPlace(trace, k);
    }
    assert Scan(Before, trace[..0]) == Before;
    AcceptedPrefix(trace, 0);
    if |trace| > 1 { AcceptedPrefix(trace, 1); }
    if |trace| > 2 { AcceptedPrefix(trace, 2); }
    assert trace[..|trace|] == trace;
  }
}
