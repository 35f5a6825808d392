/** What streaming one response does to the trace and to the context, and exactly when that is sound. */
module ResponseTheorems {
  import opened Options
  import opened AgentTypes
  import opened LoopModel
  import opened TraceGrammar

  lemma {:induction false} BrokenStaysBroken(t: seq<Event>)
    ensures Scan(Broken, t) == Broken
  {
    if t != [] {
      BrokenStaysBroken(t[..|t| - 1]);
    }
  }

  lemma ScanHead(p: Phase, e: Event, rest: seq<Event>)
    ensures Scan(p, [e] + rest) == Scan(Advance(p, e), rest)
  {
    ScanOne(p, e);
    ScanConcat(p, [e], rest);
  }

  /** An open assistant message stays open while deltas are relayed; a second start breaks the protocol. */
  lemma {:induction false} RelayedWhileOpen(stream: seq<StreamEvent>, m: Message)
    requires m.FromAssistant?
    ensures Scan(InTurn(Some(m), multiset{}), Relayed(stream, true)) ==
            if Begins(stream) == 0 then InTurn(Some(m), multiset{}) else Broken
  {
    if stream != [] && !stream[0].Terminal? {
      RelayedWhileOpen(stream[1..], m);
      var rest := Relayed(stream[1..], true);
      if stream[0].Begin? {
        ScanHead(InTurn(Some(m), multiset{}), MessageStart(FromAssistant(stream[0].partial)), rest);
        BrokenStaysBroken(rest);
      } else {
        ScanHead(InTurn(Some(m), multiset{}), MessageUpdate(FromAssistant(stream[0].partial)), rest);
      }
    }
  }

  lemma {:induction false} RelayedFromQuiet(stream: seq<StreamEvent>) returns (m: Message)
    ensures m.FromAssistant?
    ensures Scan(QUIET, Relayed(stream, false)) ==
            if Begins(stream) == 0 then QUIET else if Begins(stream) == 1 then InTurn(Some(m), multiset{}) else Broken
  {
    m := FromAssistant(Assistant([], Stop, None));
    if stream != [] && !stream[0].Terminal? {
      if stream[0].Begin? {
        m := FromAssistant(stream[0].partial);
        RelayedWhileOpen(stream[1..], m);
        ScanHead(QUIET, MessageStart(m), Relayed(stream[1..], true));
      } else {
        m := RelayedFromQuiet(stream[1..]);
      }
    }
  }

  /** A response is one well-formed assistant pair exactly when its stream begins at most once. */
  lemma ResponseObeysProtocol(stream: seq<StreamEvent>, final: Assistant)
    ensures Scan(QUIET, ResponseEvents(stream, final)) == if Begins(stream) <= 1 then QUIET else Broken
  {
    var m := RelayedFromQuiet(stream);
    var relayed, end := Relayed(stream, false), [MessageEnd(FromAssistant(final))];
    if Begins(stream) == 0 {
      ScanConcat(QUIET, relayed, Pair(FromAssistant(final)));
      ScanPairs([FromAssistant(final)]);
      assert [FromAssistant(final)][..0] == [] && Pairs([FromAssistant(final)]) == [] + Pair(FromAssistant(final));
      assert ResponseEvents(stream, final) == relayed + Pair(FromAssistant(final));
    } else {
      assert ResponseEvents(stream, final) == relayed + end;
      ScanConcat(QUIET, relayed, end);
      ScanOne(InTurn(Some(m), multiset{}), MessageEnd(FromAssistant(final)));
      BrokenStaysBroken(end);
    }
  }

  // ---------- What a listener sees of a stream ----------

  /** The first n events are all before the terminal event, if there is one. */
  ghost predicate Leads(stream: seq<StreamEvent>, n: nat) {
    && n <= |stream| && (forall i :: 0 <= i < n ==> !stream[i].Terminal?)
    && (n < |stream| ==> stream[n].Terminal?)
  }

  function Relay(e: StreamEvent): Event
    requires !e.Terminal?
  {
    var m := FromAssistant(e.partial);
    if e.Begin? then MessageStart(m) else MessageUpdate(m)
  }

  lemma {:induction false} OpenRelaysAll(stream: seq<StreamEvent>, n: nat, j: nat)
    requires Leads(stream, n)
    ensures |Relayed(stream, true)| == n
    ensures j < n ==> Relayed(stream, true)[j] == Relay(stream[j])
  {
    if n > 0 {
      OpenRelaysAll(stream[1..], n - 1, if j > 0 then j - 1 else 0);
    }
  }

  /**
   * From its first start to its terminal event every stream event reaches the listener, in order; earlier deltas do
   * not.
   */
  lemma {:induction false} StreamIsRelayed(stream: seq<StreamEvent>, n: nat, start: nat, j: nat)
    requires Leads(stream, n) && start <= j < n && stream[start].Begin?
    requires forall i :: 0 <= i < start ==> stream[i].Delta?
    ensures |Relayed(stream, false)| == n - start && Relayed(stream, false)[j - start] == Relay(stream[j])
  {
    if start == 0 {
      OpenRelaysAll(stream[1..], n - 1, if j > 0 then j - 1 else 0);
    } else {
      StreamIsRelayed(stream[1..], n - 1, start - 1, j - 1);
    }
  }

  lemma {:induction false} RelayedCompletesNothing(stream: seq<StreamEvent>, open: bool)
    ensures Completed(Relayed(stream, open)) == []
  {
    if stream != [] && !stream[0].Terminal? {
      var now := if stream[0].Begin? then true else open;
      RelayedCompletesNothing(stream[1..], now);
      var rest := Relayed(stream[1..], now);
      if Relayed(stream, open) != rest {
        var e := Relayed(stream, open)[0];
        CompletedConcat([e], rest);
        assert [e][..0] == [] && Completed([e][..0]) == [];
      }
    }
  }

  /** However it is streamed, a response completes its final message and nothing else. */
  lemma ResponseCompletesFinal(stream: seq<StreamEvent>, final: Assistant)
    ensures Completed(ResponseEvents(stream, final)) == [FromAssistant(final)]
  {
    RelayedCompletesNothing(stream, false);
    var init := Relayed(stream, false) + if Begins(stream) == 0 then [MessageStart(FromAssistant(final))] else [];
    if Begins(stream) == 0 {
      assert init[..|init| - 1] == Relayed(stream, false);
    } else {
      assert init == Relayed(stream, false);
    }
    assert ResponseEvents(stream, final)[..|init|] == init;
  }

  lemma {:induction false} StreamedGrowth(context: seq<Message>, stream: seq<StreamEvent>, final: Assistant, open: bool)
    requires open ==> context != []
    ensures var s := Streamed(context, stream, final, open);
            |s| == |context| + Begins(stream) + (if Begins(stream) == 0 && !open then 1 else 0)
    ensures var s := Streamed(context, stream, final, open);
            var kept := if open then context[..|context| - 1] else context;
            kept <= s && s[|s| - 1] == FromAssistant(final)
    decreases |stream|
  {
    if stream != [] && !stream[0].Terminal? {
      var m := FromAssistant(stream[0].partial);
      if stream[0].Begin? {
        StreamedGrowth(context + [m], stream[1..], final, true);
      } else if open {
        StreamedGrowth(context[..|context| - 1] + [m], stream[1..], final, true);
        assert (context[..|context| - 1] + [m])[..|context| - 1] == context[..|context| - 1];
      } else {
        StreamedGrowth(context, stream[1..], final, false);
      }
    }
  }

  /** The context gains the final message alone exactly when the stream begins at most once. */
  lemma StreamedExact(context: seq<Message>, stream: seq<StreamEvent>, final: Assistant)
    ensures Streamed(context, stream, final, false) == context + [FromAssistant(final)] <==> Begins(stream) <= 1
  {
    StreamedGrowth(context, stream, final, false);
    var s := Streamed(context, stream, final, false);
    if Begins(stream) <= 1 {
      assert s == s[..|context|] + [s[|context|]];
    }
  }
}
