/** Messages, events and environment answers shared by the agent loop and the agent. */
module AgentTypes {
  import opened Options

  datatype ToolCall = ToolCall(id: string, name: string, arguments: string)

  datatype Block = Text(text: string) | Thinking(text: string) | Call(call: ToolCall)

  datatype StopReason = Stop | Length | ToolUse | Error | Aborted

  datatype Assistant = Assistant(blocks: seq<Block>, stopReason: StopReason, errorMessage: Option<string>) {
    predicate Failed() {
      stopReason.Error? || stopReason.Aborted?
    }
  }

  /** Why an error result was made; each constructor stands for one fixed wording of the source. */
  datatype Reason =
    | ToolNotFound(name: string)
    | TruncatedResponse(name: string)
    | OperationAborted
    | BlockedByHook(reason: Option<string>)
    | Threw(message: string)

  datatype Part = Output(text: string) | Failure(reason: Reason)

  /** What a tool returns. `content` is None for untyped tools that return no content. */
  datatype ToolResult = ToolResult(
    content: Option<seq<Part>>, details: string, usage: Option<string>,
    addedToolNames: seq<string>, terminate: Option<bool>)

  datatype ToolReply = ToolReply(
    toolCallId: string, toolName: string, content: seq<Part>, details: string, usage: Option<string>,
    addedToolNames: seq<string>, isError: bool)

  datatype Message =
    | User(text: string)
    | FromAssistant(assistant: Assistant)
    | FromTool(reply: ToolReply)
    | Custom(role: string, payload: string)

  datatype Event =
    | AgentStart
    | AgentEnd(messages: seq<Message>)
    | TurnStart
    | TurnEnd(message: Message, toolResults: seq<Message>)
    | MessageStart(message: Message)
    | MessageUpdate(message: Message)
    | MessageEnd(message: Message)
    | ToolStart(call: ToolCall)
    | ToolUpdate(call: ToolCall, partial: string)
    | ToolEnd(call: ToolCall, result: ToolResult, isError: bool)
  {
    predicate IsTool() {
      ToolStart? || ToolUpdate? || ToolEnd?
    }
  }

  /** The tool calls of an assistant message, in source order. */
  function ToolCalls(blocks: seq<Block>): seq<ToolCall> {
    if blocks == [] then []
    else (if blocks[0].Call? then [blocks[0].call] else []) + ToolCalls(blocks[1..])
  }

  /** A message that is complete as soon as it is announced. */
  function Pair(m: Message): seq<Event> {
    [MessageStart(m), MessageEnd(m)]
  }

  function Pairs(ms: seq<Message>): seq<Event> {
    if ms == [] then [] else Pairs(ms[..|ms| - 1]) + Pair(ms[|ms| - 1])
  }

  /** The messages a listener has seen completed: the message_end projection of a trace. */
  function Completed(trace: seq<Event>): seq<Message> {
    if trace == [] then []
    else
      var last := trace[|trace| - 1];
      Completed(trace[..|trace| - 1]) + if last.MessageEnd? then [last.message] else []
  }

  lemma {:induction false} CompletedConcat(a: seq<Event>, b: seq<Event>)
    ensures Completed(a + b) == Completed(a) + Completed(b)
  {
    if b == [] {
      assert a + b == a;
    } else {
      var init := b[..|b| - 1];
      assert (a + b)[..|a + b| - 1] == a + init;
      CompletedConcat(a, init);
    }
  }

  lemma CompletedOne(e: Event)
    ensures Completed([e]) == if e.MessageEnd? then [e.message] else []
  {
    assert [e][..0] == [] && Completed([e][..0]) == [];
  }

  lemma {:induction false} CompletedPairs(ms: seq<Message>)
    ensures Completed(Pairs(ms)) == ms
  {
    if ms != [] {
      var init, last := ms[..|ms| - 1], ms[|ms| - 1];
      CompletedPairs(init);
      CompletedConcat(Pairs(init), Pair(last));
      assert Completed(Pair(last)) == [last] by {
        assert Pair(last)[..1] == [MessageStart(last)];
        assert Completed([MessageStart(last)]) == [] by { assert [MessageStart(last)][..0] == []; }
      }
      assert init + [last] == ms;
    }
  }

  /** The event callback of a run: remembers what was emitted, in order. */
  class EventLog {
    var trace: seq<Event>

    constructor ()
      ensures trace == []
    {
      trace := [];
    }

    method Emit(event: Event)
      modifies this
      ensures trace == old(trace) + [event]
    {
      trace := trace + [event];
    }
  }
}
