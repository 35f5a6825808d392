/** The agent's steering and follow-up queues. */
module MessageQueue {
  import opened AgentTypes

  datatype QueueMode = All | OneAtATime

  /** What a poll takes off the queue, and what it leaves. */
  function Taken(mode: QueueMode, queue: seq<Message>): seq<Message> {
    if mode.All? || queue == [] then queue else queue[..1]
  }

  function Left(mode: QueueMode, queue: seq<Message>): seq<Message> {
    if mode.All? || queue == [] then [] else queue[1..]
  }

  class PendingMessageQueue {
    var messages: seq<Message>
    var mode: QueueMode

    constructor (mode: QueueMode)
      ensures messages == [] && this.mode == mode
    {
      messages, this.mode := [], mode;
    }

    method Enqueue(message: Message)
      modifies this`messages
      ensures messages == old(messages) + [message]
    {
      messages := messages + [message];
    }

    method HasItems() returns (r: bool)
      ensures r <==> messages != []
    {
      r := |messages| > 0;
    }

    /** FIFO: what is drained followed by what stays is what was queued. */
    method Drain() returns (drained: seq<Message>)
      modifies this`messages
      ensures drained == Taken(mode, old(messages)) && messages == Left(mode, old(messages))
      ensures drained + messages == old(messages)
      ensures drained == [] <==> old(messages) == []
      ensures mode.OneAtATime? ==> |drained| <= 1
      ensures mode.All? ==> messages == []
    {
      if mode == All {
        drained := messages;
        messages := [];
        return;
      }
      if messages == [] {
        return [];
      }
      drained := [messages[0]];
      messages := messages[1..];
    }

    method Clear()
      modifies this`messages
      ensures messages == []
    {
      messages := [];
    }
  }
}
