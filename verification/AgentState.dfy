/** The agent's own transcript, reduced from the event stream one event at a time. */
module AgentState {
  import opened Options
  import opened AgentTypes

  /** The value of the reduced state: everything `processEvents` writes. */
  datatype View = View(
    messages: seq<Message>, streaming: Option<Message>, pending: set<string>, errorMessage: Option<string>)

  function Reduce(v: View, e: Event): View {
    match e
    case MessageStart(m) => v.(streaming := Some(m))
    case MessageUpdate(m) => v.(streaming := Some(m))
    case MessageEnd(m) => v.(streaming := None, messages := v.messages + [m])
    case ToolStart(call) => v.(pending := v.pending + {call.id})
    case ToolEnd(call, _, _) => v.(pending := v.pending - {call.id})
    case TurnEnd(m, _) =>
      if m.FromAssistant? && m.assistant.errorMessage.Some? && m.assistant.errorMessage.value != ""
      then v.(errorMessage := m.assistant.errorMessage) else v
    case AgentEnd(_) => v.(streaming := None)
    case _ => v
  }

  function ReduceAll(v: View, trace: seq<Event>): View {
    if trace == [] then v else Reduce(ReduceAll(v, trace[..|trace| - 1]), trace[|trace| - 1])
  }

  lemma {:induction false} ReduceAllConcat(v: View, a: seq<Event>, b: seq<Event>)
    ensures ReduceAll(v, a + b) == ReduceAll(ReduceAll(v, a), b)
  {
    if b == [] {
      assert a + b == a;
    } else {
      var init := b[..|b| - 1];
      assert (a + b)[..|a + b| - 1] == a + init;
      ReduceAllConcat(v, a, init);
    }
  }

  /** Whatever the trace, the transcript grows by exactly the messages it completes. */
  lemma {:induction false} TranscriptFollowsTrace(v: View, trace: seq<Event>)
    ensures ReduceAll(v, trace).messages == v.messages + Completed(trace)
  {
    if trace == [] {
      assert v.messages + [] == v.messages;
    } else {
      TranscriptFollowsTrace(v, trace[..|trace| - 1]);
    }
  }

  // ---------- The error and the message in progress ----------

  predicate HasError(a: Assistant) {
    a.errorMessage.Some? && a.errorMessage.value != ""
  }

  /** The end of a turn whose response carries an error. */
  predicate ReportsError(e: Event) {
    e.TurnEnd? && e.message.FromAssistant? && HasError(e.message.assistant)
  }

  ghost predicate NoErrorFrom(trace: seq<Event>, k: nat) {
    forall j :: k <= j < |trace| ==> !ReportsError(trace[j])
  }

  /** `error` is that of the last turn that had one, or else the old one. */
  ghost predicate IsErrorAfter(trace: seq<Event>, before: Option<string>, error: Option<string>) {
    && (NoErrorFrom(trace, 0) ==> error == before)
    && (forall k: nat :: k < |trace| && ReportsError(trace[k]) && NoErrorFrom(trace, k + 1) ==>
          error == trace[k].message.assistant.errorMessage)
  }

  lemma NoErrorInit(trace: seq<Event>, e: Event, k: nat)
    requires k <= |trace|
    ensures NoErrorFrom(trace + [e], k) <==> NoErrorFrom(trace, k) && !ReportsError(e)
  {
    var more := trace + [e];
    assert more[|trace|] == e && forall j :: 0 <= j < |trace| ==> more[j] == trace[j];
  }

  lemma ErrorOneMore(trace: seq<Event>, e: Event, before: Option<string>, error: Option<string>)
    requires IsErrorAfter(trace, before, error)
    ensures IsErrorAfter(trace + [e], before, if ReportsError(e) then e.message.assistant.errorMessage else error)
  {
    var more := trace + [e];
    NoErrorInit(trace, e, 0);
    forall k: nat | k < |trace| && ReportsError(more[k]) && NoErrorFrom(more, k + 1)
      ensures ReportsError(trace[k]) && NoErrorFrom(trace, k + 1) && !ReportsError(e)
    {
      NoErrorInit(trace, e, k + 1);
    }
  }

  lemma ReducedError(v: View, e: Event)
    ensures Reduce(v, e).errorMessage == if ReportsError(e) then e.message.assistant.errorMessage else v.errorMessage
  {
  }

  /** Whatever the trace, the error shown is that of the last turn that had one, or else the old one. */
  lemma {:induction false} ErrorFollowsTrace(v: View, trace: seq<Event>)
    ensures IsErrorAfter(trace, v.errorMessage, ReduceAll(v, trace).errorMessage)
  {
    if trace != [] {
      var init, e := trace[..|trace| - 1], trace[|trace| - 1];
      assert trace == init + [e];
      ErrorFollowsTrace(v, init);
      ErrorOneMore(init, e, v.errorMessage, ReduceAll(v, init).errorMessage);
      ReducedError(ReduceAll(v, init), e);
    }
  }

  predicate ShowsMessage(e: Event) {
    e.MessageStart? || e.MessageUpdate?
  }

  predicate HidesMessage(e: Event) {
    e.MessageEnd? || e.AgentEnd?
  }

  ghost predicate NoMessageFrom(trace: seq<Event>, k: nat) {
    forall j :: k <= j < |trace| ==> !ShowsMessage(trace[j]) && !HidesMessage(trace[j])
  }

  /** `streaming` is the message started or updated last, until a message or the run ends; or else the old one. */
  ghost predicate IsStreamingAfter(trace: seq<Event>, before: Option<Message>, streaming: Option<Message>) {
    && (NoMessageFrom(trace, 0) ==> streaming == before)
    && (forall k: nat :: k < |trace| && ShowsMessage(trace[k]) && NoMessageFrom(trace, k + 1) ==>
          streaming == Some(trace[k].message))
    && (forall k: nat :: k < |trace| && HidesMessage(trace[k]) && NoMessageFrom(trace, k + 1) ==> streaming.None?)
  }

  lemma NoMessageInit(trace: seq<Event>, e: Event, k: nat)
    requires k <= |trace|
    ensures NoMessageFrom(trace + [e], k) <==> NoMessageFrom(trace, k) && !ShowsMessage(e) && !HidesMessage(e)
  {
    var more := trace + [e];
    assert more[|trace|] == e && forall j :: 0 <= j < |trace| ==> more[j] == trace[j];
  }

  function StreamingBy(e: Event, streaming: Option<Message>): Option<Message> {
    if ShowsMessage(e) then Some(e.message) else if HidesMessage(e) then None else streaming
  }

  lemma StreamingOneMore(trace: seq<Event>, e: Event, before: Option<Message>, streaming: Option<Message>)
    requires IsStreamingAfter(trace, before, streaming)
    ensures IsStreamingAfter(trace + [e], before, StreamingBy(e, streaming))
  {
    var more := trace + [e];
    NoMessageInit(trace, e, 0);
    forall k: nat | k < |trace| && NoMessageFrom(more, k + 1)
      ensures more[k] == trace[k] && NoMessageFrom(trace, k + 1) && !ShowsMessage(e) && !HidesMessage(e)
    {
      NoMessageInit(trace, e, k + 1);
    }
  }

  lemma ReducedStreaming(v: View, e: Event)
    ensures Reduce(v, e).streaming == StreamingBy(e, v.streaming)
  {
  }

  /** Whatever the trace, the message in progress is what its last event about a message leaves. */
  lemma {:induction false} StreamingFollowsTrace(v: View, trace: seq<Event>)
    ensures IsStreamingAfter(trace, v.streaming, ReduceAll(v, trace).streaming)
  {
    if trace != [] {
      var init, e := trace[..|trace| - 1], trace[|trace| - 1];
      assert trace == init + [e];
      StreamingFollowsTrace(v, init);
      StreamingOneMore(init, e, v.streaming, ReduceAll(v, init).streaming);
      ReducedStreaming(ReduceAll(v, init), e);
    }
  }

  // ---------- The pending calls ----------

  function StartedIds(trace: seq<Event>): set<string> {
    set e | e in trace && e.ToolStart? :: e.call.id
  }

  function EndedIds(trace: seq<Event>): set<string> {
    set e | e in trace && e.ToolEnd? :: e.call.id
  }

  /** No call id is started again once it has ended. */
  ghost predicate NeverRestarted(trace: seq<Event>) {
    forall i, j :: 0 <= i < j < |trace| && trace[i].ToolEnd? && trace[j].ToolStart? ==>
      trace[i].call.id != trace[j].call.id
  }

  function StartedBy(e: Event): set<string> {
    if e.ToolStart? then {e.call.id} else {}
  }

  function EndedBy(e: Event): set<string> {
    if e.ToolEnd? then {e.call.id} else {}
  }

  lemma IdsOneMore(trace: seq<Event>, e: Event)
    ensures StartedIds(trace + [e]) == StartedIds(trace) + StartedBy(e)
    ensures EndedIds(trace + [e]) == EndedIds(trace) + EndedBy(e)
  {
    assert forall x :: x in trace + [e] <==> x in trace || x == e;
  }

  lemma NotYetEnded(trace: seq<Event>, e: Event)
    requires NeverRestarted(trace + [e])
    ensures NeverRestarted(trace) && StartedBy(e) !! EndedIds(trace)
  {
    var more := trace + [e];
    assert more[|trace|] == e && forall i :: 0 <= i < |trace| ==> more[i] == trace[i];
  }

  lemma ReducedPending(v: View, e: Event)
    ensures Reduce(v, e).pending == v.pending + StartedBy(e) - EndedBy(e)
  {
  }

  lemma ReduceOneMore(v: View, trace: seq<Event>, e: Event)
    ensures ReduceAll(v, trace + [e]) == Reduce(ReduceAll(v, trace), e)
  {
    assert (trace + [e])[..|trace|] == trace;
  }

  /** The pending set is the started ids minus the ended ones, unless some id is started anew. */
  lemma {:induction false} PendingIsStartedMinusEnded(v: View, trace: seq<Event>)
    requires v.pending == {} && NeverRestarted(trace)
    ensures ReduceAll(v, trace).pending == StartedIds(trace) - EndedIds(trace)
  {
    if trace != [] {
      var init, e := trace[..|trace| - 1], trace[|trace| - 1];
      assert trace == init + [e];
      NotYetEnded(init, e);
      PendingIsStartedMinusEnded(v, init);
      IdsOneMore(init, e);
      ReduceOneMore(v, init, e);
      ReducedPending(ReduceAll(v, init), e);
    }
  }

  /** Conversely, a restarted id is pending although it has ended, so the condition is exact. */
  lemma PendingExact(v: View, trace: seq<Event>)
    requires v.pending == {}
    ensures NeverRestarted(trace) <==>
            forall k :: 0 <= k <= |trace| ==>
              ReduceAll(v, trace[..k]).pending == StartedIds(trace[..k]) - EndedIds(trace[..k])
  {
    if NeverRestarted(trace) {
      forall k | 0 <= k <= |trace|
        ensures ReduceAll(v, trace[..k]).pending == StartedIds(trace[..k]) - EndedIds(trace[..k])
      {
        PendingIsStartedMinusEnded(v, trace[..k]);
      }
    } else {
      var i, j :|
        0 <= i < j < |trace| && trace[i].ToolEnd? && trace[j].ToolStart? && trace[i].call.id == trace[j].call.id;
      var prefix := trace[..j + 1];
      assert prefix[..|prefix| - 1] == trace[..j];
      assert prefix[i] in prefix && prefix[i].call.id in EndedIds(prefix);
      assert trace[j].call.id in ReduceAll(v, prefix).pending;
    }
  }

  /** `MutableAgentState` together with the reducing half of `processEvents`. */
  class State {
    var messages: seq<Message>
    var streamingMessage: Option<Message>
    var pendingToolCalls: set<string>
    var errorMessage: Option<string>
    var isStreaming: bool

    ghost function Value(): View
      reads this
    {
      View(messages, streamingMessage, pendingToolCalls, errorMessage)
    }

    constructor (initial: seq<Message>)
      ensures Value() == View(initial, None, {}, None) && !isStreaming
    {
      isStreaming := false;
      messages, streamingMessage, pendingToolCalls, errorMessage := initial, None, {}, None;
    }

    method ProcessEvent(event: Event)
      modifies this
      ensures Value() == Reduce(old(Value()), event) && isStreaming == old(isStreaming)
    {
      match event {
        case MessageStart(m) => streamingMessage := Some(m);
        case MessageUpdate(m) => streamingMessage := Some(m);
        case MessageEnd(m) =>
          streamingMessage := None;
          messages := messages + [m];
        case ToolStart(call) => pendingToolCalls := pendingToolCalls + {call.id};
        case ToolEnd(call, _, _) => pendingToolCalls := pendingToolCalls - {call.id};
        case TurnEnd(m, _) =>
          if m.FromAssistant? && m.assistant.errorMessage.Some? && m.assistant.errorMessage.value != "" {
            errorMessage := m.assistant.errorMessage;
          }
        case AgentEnd(_) => streamingMessage := None;
        case _ =>
      }
    }

    /** What the start of a run sets. */
    method BeginRun()
      modifies this
      ensures isStreaming && Value() == old(Value()).(streaming := None, errorMessage := None)
    {
      isStreaming, streamingMessage, errorMessage := true, None, None;
    }

    /** `finishRun`, as far as the state goes. */
    method EndRun()
      modifies this
      ensures !isStreaming && Value() == old(Value()).(streaming := None, pending := {})
    {
      isStreaming := false;
      streamingMessage := None;
      pendingToolCalls := {};
    }

    /** Delivers the events of a finished or suspended loop, in the order they were emitted. */
    method ProcessAll(trace: seq<Event>)
      modifies this
      ensures Value() == ReduceAll(old(Value()), trace) && isStreaming == old(isStreaming)
    {
      for i := 0 to |trace|
        invariant isStreaming == old(isStreaming) && Value() == ReduceAll(old(Value()), trace[..i])
      {
        ProcessEvent(trace[i]);
        assert trace[..i + 1][..i] == trace[..i];
      }
      assert trace[..|trace|] == trace;
    }
  }
}
