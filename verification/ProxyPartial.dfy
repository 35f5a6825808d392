/** Rebuilding an assistant message on the client from events whose `partial` the server stripped. */
module ProxyPartial {
  import opened Options
  import opened LineFraming

  datatype ProxyEvent =
    | Start
    | TextStart(index: int) | TextDelta(index: int, delta: string) | TextEnd(index: int, signature: Option<string>)
    | ThinkingStart(index: int) | ThinkingDelta(index: int, delta: string)
    | ThinkingEnd(index: int, signature: Option<string>)
    | ToolCallStart(index: int, id: string, name: string) | ToolCallDelta(index: int, delta: string)
    | ToolCallEnd(index: int)
    | Done(reason: string, usage: string)
    | Failed(reason: string, errorMessage: Option<string>, usage: string)
    | Unknown
  {
    predicate OnBlock() {
      !Start? && !Done? && !Failed? && !Unknown?
    }

    predicate Opens() {
      TextStart? || ThinkingStart? || ToolCallStart?
    }
  }

  /** A content block; a tool call keeps the JSON received so far until it ends. */
  datatype Block<A> =
    | Text(text: string, signature: Option<string>)
    | Thinking(thinking: string, thinkingSignature: Option<string>)
    | ToolCall(id: string, name: string, arguments: A, partialJson: Option<string>)

  /** Why a message failed: told by the server, unreadable data, or an event that does not fit its block. */
  datatype Failure = Reported(message: string) | Malformed(message: string) | Mismatched(event: ProxyEvent)

  /** The message being rebuilt. `content` is a sparse array: an index may be opened in any order. */
  datatype Partial<A> = Partial(
    content: map<int, Block<A>>, stopReason: string, usage: string, error: Option<Failure>)

  /** What an event passed on to the consumer carries besides itself. */
  datatype Emitted<A> = Emitted(event: ProxyEvent, completed: Option<Block<A>>)

  /** How tool-call JSON is read; a falsy parse counts as no arguments. */
  datatype Reader<!A> = Reader(parse: string -> Option<A>, empty: A) {
    function Read(json: string): A {
      var parsed := parse(json);
      if parsed.Some? then parsed.value else empty
    }
  }

  /** The effect of an event on the block it addresses; None if it throws. Other events have none. */
  function OnBlock<A>(reader: Reader<A>, block: Option<Block<A>>, e: ProxyEvent): Option<Option<Block<A>>> {
    match e
    case TextStart(_) => Some(Some(Text("", None)))
    case ThinkingStart(_) => Some(Some(Thinking("", None)))
    case ToolCallStart(_, id, name) => Some(Some(ToolCall(id, name, reader.empty, Some(""))))
    case TextDelta(_, delta) =>
      if block.Some? && block.value.Text? then Some(Some(block.value.(text := block.value.text + delta))) else None
    case ThinkingDelta(_, delta) =>
      if block.Some? && block.value.Thinking? then Some(Some(block.value.(thinking := block.value.thinking + delta)))
        else None
    case TextEnd(_, signature) =>
      if block.Some? && block.value.Text? then Some(Some(block.value.(signature := signature))) else None
    case ThinkingEnd(_, signature) =>
      if block.Some? && block.value.Thinking? then Some(Some(block.value.(thinkingSignature := signature))) else None
    case ToolCallDelta(_, delta) =>
      if block.Some? && block.value.ToolCall? then
        // After its end a call has no JSON left, and appending to nothing spells it out.
        var before := if block.value.partialJson.Some? then block.value.partialJson.value else "undefined";
        Some(Some(block.value.(partialJson := Some(before + delta), arguments := reader.Read(before + delta))))
      else None
    case ToolCallEnd(_) =>
      // The one mismatch that is ignored instead of refused.
      Some(if block.Some? && block.value.ToolCall? then Some(block.value.(partialJson := None)) else block)
    case _ => Some(block)
  }

  function Lookup<A>(content: map<int, Block<A>>, i: int): Option<Block<A>> {
    if i in content then Some(content[i]) else None
  }

  function Report(message: Option<string>): Option<Failure> {
    if message.Some? then Some(Reported(message.value)) else None
  }

  /** One event applied to the whole message; None if it throws. */
  function Apply<A>(reader: Reader<A>, p: Partial<A>, e: ProxyEvent): Option<Partial<A>> {
    if e.Done? then Some(p.(stopReason := e.reason, usage := e.usage))
    else if e.Failed? then Some(p.(stopReason := e.reason, error := Report(e.errorMessage), usage := e.usage))
    else if !e.OnBlock() then Some(p)
    else
      var changed := OnBlock(reader, Lookup(p.content, e.index), e);
      if changed.None? then None
      else if changed.value.None? then Some(p)
      else Some(p.(content := p.content[e.index := changed.value.value]))
  }

  /** What is passed on for an event that does not throw: all but unknown events and stray toolcall_ends. */
  function Emission<A>(reader: Reader<A>, p: Partial<A>, e: ProxyEvent): Option<Emitted<A>>
    requires Apply(reader, p, e).Some?
  {
    if e.Unknown? || (e.ToolCallEnd? && !(e.index in p.content && p.content[e.index].ToolCall?)) then None
    else if e.TextEnd? || e.ThinkingEnd? || e.ToolCallEnd? then
      Some(Emitted(e, Lookup(Apply(reader, p, e).value.content, e.index)))
    else Some(Emitted(e, None))
  }

  function Replay<A>(reader: Reader<A>, p: Partial<A>, log: seq<ProxyEvent>): Option<Partial<A>> {
    if log == [] then Some(p)
    else
      var before := Replay(reader, p, log[..|log| - 1]);
      if before.None? then None else Apply(reader, before.value, log[|log| - 1])
  }

  class Client<A> {
    const reader: Reader<A>
    var content: map<int, Block<A>>
    var stopReason: string
    var usage: string
    var error: Option<Failure>

    ghost function Value(): Partial<A>
      reads this
    {
      Partial(content, stopReason, usage, error)
    }

    constructor (reader: Reader<A>)
      ensures this.reader == reader && Value() == Partial(map[], "stop", "", None)
    {
      this.reader := reader;
      content, stopReason, usage, error := map[], "stop", "", None;
    }

    /**
     * `processProxyEvent`. A delta or end that does not fit its block is refused and leaves the message
     * exactly as it was; an unknown event and a stray toolcall_end pass without being emitted.
     */
    method Process(e: ProxyEvent) returns (threw: bool, emitted: Option<Emitted<A>>)
      modifies this
      ensures threw <==> Apply(reader, old(Value()), e).None?
      ensures Value() == if threw then old(Value()) else Apply(reader, old(Value()), e).value
      ensures emitted == if threw then None else Emission(reader, old(Value()), e)
    {
      threw, emitted := false, Some(Emitted(e, None));
      match e {
        case Start =>
        case Unknown => emitted := None;
        case TextStart(i) => content := content[i := Text("", None)];
        case ThinkingStart(i) => content := content[i := Thinking("", None)];
        case ToolCallStart(i, id, name) => content := content[i := ToolCall(id, name, reader.empty, Some(""))];
        case TextDelta(i, delta) =>
          if i !in content || !content[i].Text? { return true, None; }
          content := content[i := content[i].(text := content[i].text + delta)];
        case ThinkingDelta(i, delta) =>
          if i !in content || !content[i].Thinking? { return true, None; }
          content := content[i := content[i].(thinking := content[i].thinking + delta)];
        case TextEnd(i, signature) =>
          if i !in content || !content[i].Text? { return true, None; }
          content := content[i := content[i].(signature := signature)];
          emitted := Some(Emitted(e, Some(content[i])));
        case ThinkingEnd(i, signature) =>
          if i !in content || !content[i].Thinking? { return true, None; }
          content := content[i := content[i].(thinkingSignature := signature)];
          emitted := Some(Emitted(e, Some(content[i])));
        case ToolCallDelta(i, delta) =>
          if i !in content || !content[i].ToolCall? { return true, None; }
          var before := if content[i].partialJson.Some? then content[i].partialJson.value else "undefined";
          content :=
            content[i := content[i].(partialJson := Some(before + delta), arguments := reader.Read(before + delta))];
        case ToolCallEnd(i) =>
          if i !in content || !content[i].ToolCall? { return false, None; }
          content := content[i := content[i].(partialJson := None)];
          emitted := Some(Emitted(e, Some(content[i])));
        case Done(reason, u) => stopReason, usage := reason, u;
        case Failed(reason, message, u) => stopReason, error, usage := reason, Report(message), u;
      }
    }
  }

  // ---------- Events of one index ----------

  function Own(log: seq<ProxyEvent>, i: int): seq<ProxyEvent> {
    if log == [] then []
    else
      var last := log[|log| - 1];
      Own(log[..|log| - 1], i) + if last.OnBlock() && last.index == i then [last] else []
  }

  function ReplayBlock<A>(reader: Reader<A>, block: Option<Block<A>>, own: seq<ProxyEvent>): Option<Option<Block<A>>> {
    if own == [] then Some(block)
    else
      var before := ReplayBlock(reader, block, own[..|own| - 1]);
      if before.None? then None else OnBlock(reader, before.value, own[|own| - 1])
  }

  /** An event changes at most the block it addresses, and throws exactly when that block refuses it. */
  lemma ApplyIsLocal<A>(reader: Reader<A>, p: Partial<A>, e: ProxyEvent, i: int)
    ensures var own := OnBlock(reader, Lookup(p.content, i), e);
            var after := Apply(reader, p, e);
            if e.OnBlock() && e.index == i
            then (after.Some? <==> own.Some?) && (after.Some? ==> Lookup(after.value.content, i) == own.value)
            else after.Some? ==> Lookup(after.value.content, i) == Lookup(p.content, i)
  {
  }

  lemma OwnSnoc(log: seq<ProxyEvent>, e: ProxyEvent, i: int)
    ensures Own(log + [e], i) == if e.OnBlock() && e.index == i then Own(log, i) + [e] else Own(log, i)
  {
    assert (log + [e])[..|log|] == log;
    assert Own(log, i) + [] == Own(log, i);
  }

  lemma ReplayBlockSnoc<A>(reader: Reader<A>, block: Option<Block<A>>, own: seq<ProxyEvent>, e: ProxyEvent)
    ensures var before := ReplayBlock(reader, block, own);
            ReplayBlock(reader, block, own + [e]) == if before.None? then None else OnBlock(reader, before.value, e)
  {
    assert (own + [e])[..|own|] == own;
  }

  /** A delta that follows the end of its tool call is read as if the JSON had begun with the word "undefined". */
  lemma DeltaAfterEnd<A>(reader: Reader<A>, block: Option<Block<A>>, i: int, id: string, name: string, delta: string)
    ensures var json := "undefined" + delta;
            ReplayBlock(reader, block, [ToolCallStart(i, id, name), ToolCallEnd(i), ToolCallDelta(i, delta)]) ==
            Some(Some(ToolCall(id, name, reader.Read(json), Some(json))))
  {
    var start, end, last := ToolCallStart(i, id, name), ToolCallEnd(i), ToolCallDelta(i, delta);
    ReplayBlockSnoc(reader, block, [], start);
    ReplayBlockSnoc(reader, block, [start], end);
    ReplayBlockSnoc(reader, block, [start, end], last);
    assert [] + [start] == [start] && [start] + [end] == [start, end] && [start, end] + [last] == [start, end, last];
  }

  /** Locality: in a log that replays, every block is what its own events make of it. */
  lemma {:induction false} BlocksAreIndependent<A>(reader: Reader<A>, p: Partial<A>, log: seq<ProxyEvent>, i: int)
    requires p.content == map[] && Replay(reader, p, log).Some?
    ensures ReplayBlock(reader, None, Own(log, i)) == Some(Lookup(Replay(reader, p, log).value.content, i))
  {
    if log != [] {
      var init, last := log[..|log| - 1], log[|log| - 1];
      assert log == init + [last];
      OwnSnoc(init, last, i);
      BlocksAreIndependent(reader, p, init, i);
      ApplyIsLocal(reader, Replay(reader, p, init).value, last, i);
      ReplayBlockSnoc(reader, None, Own(init, i), last);
    }
  }

  ghost predicate BlocksReplay<A>(reader: Reader<A>, log: seq<ProxyEvent>) {
    forall i :: ReplayBlock(reader, None, Own(log, i)).Some?
  }

  lemma BlocksReplaySnoc<A>(reader: Reader<A>, log: seq<ProxyEvent>, e: ProxyEvent)
    ensures BlocksReplay(reader, log + [e]) <==>
            BlocksReplay(reader, log) && (e.OnBlock() ==> ReplayBlock(reader, None, Own(log, e.index) + [e]).Some?)
  {
    forall i ensures Own(log + [e], i) == if e.OnBlock() && e.index == i then Own(log, i) + [e] else Own(log, i) {
      OwnSnoc(log, e, i);
    }
    if BlocksReplay(reader, log + [e]) {
      forall i ensures ReplayBlock(reader, None, Own(log, i)).Some? {
        assert ReplayBlock(reader, None, Own(log + [e], i)).Some?;
        ReplayBlockSnoc(reader, None, Own(log, i), e);
      }
      if e.OnBlock() {
        assert ReplayBlock(reader, None, Own(log + [e], e.index)).Some?;
      }
    }
  }

  /** A log replays without throwing exactly when the events of each index do by themselves. */
  lemma {:induction false} ReplaysIfBlocksDo<A>(reader: Reader<A>, p: Partial<A>, log: seq<ProxyEvent>)
    requires p.content == map[]
    ensures Replay(reader, p, log).Some? <==> BlocksReplay(reader, log)
  {
    if log != [] {
      var init, last := log[..|log| - 1], log[|log| - 1];
      assert log == init + [last];
      ReplaysIfBlocksDo(reader, p, init);
      BlocksReplaySnoc(reader, init, last);
      if Replay(reader, p, init).Some? && last.OnBlock() {
        BlocksAreIndependent(reader, p, init, last.index);
        ApplyIsLocal(reader, Replay(reader, p, init).value, last, last.index);
        ReplayBlockSnoc(reader, None, Own(init, last.index), last);
      }
    }
  }

  /** A block's start forgets everything its index held before. */
  lemma {:induction false} StartForgets<A>(
    reader: Reader<A>, block: Option<Block<A>>, other: Option<Block<A>>, start: ProxyEvent, after: seq<ProxyEvent>)
    requires start.Opens()
    ensures ReplayBlock(reader, block, [start] + after) == ReplayBlock(reader, other, [start] + after)
  {
    var own := [start] + after;
    if after == [] {
      assert own[..0] == [];
    } else {
      assert own[..|own| - 1] == [start] + after[..|after| - 1];
      StartForgets(reader, block, other, start, after[..|after| - 1]);
    }
  }

  // ---------- What the sender had ----------

  /** One block as the sender streamed it: its opening, its pieces, and how it was signed off. */
  datatype Sent =
    | SentText(pieces: seq<string>, signature: Option<string>)
    | SentThinking(pieces: seq<string>, signature: Option<string>)
    | SentToolCall(id: string, name: string, pieces: seq<string>)

  function DeltaOf(i: int, sent: Sent, k: nat): ProxyEvent
    requires k < |sent.pieces|
  {
    match sent
    case SentText(pieces, _) => TextDelta(i, pieces[k])
    case SentThinking(pieces, _) => ThinkingDelta(i, pieces[k])
    case SentToolCall(_, _, pieces) => ToolCallDelta(i, pieces[k])
  }

  /** The stripped events of one block, in order. */
  function Script(i: int, sent: Sent): seq<ProxyEvent> {
    var start := match sent
      case SentText(_, _) => TextStart(i)
      case SentThinking(_, _) => ThinkingStart(i)
      case SentToolCall(id, name, _) => ToolCallStart(i, id, name);
    var end := match sent
      case SentText(_, signature) => TextEnd(i, signature)
      case SentThinking(_, signature) => ThinkingEnd(i, signature)
      case SentToolCall(_, _, _) => ToolCallEnd(i);
    [start] + seq(|sent.pieces|, k requires 0 <= k < |sent.pieces| => DeltaOf(i, sent, k)) + [end]
  }

  /** The sender's own block after its first n events, n > 0. */
  function Original<A>(reader: Reader<A>, sent: Sent, n: nat): Block<A>
    requires 0 < n <= |sent.pieces| + 2
  {
    var ended := n == |sent.pieces| + 2;
    var sofar := sent.pieces[..if ended then |sent.pieces| else n - 1];
    match sent
    case SentText(_, signature) => Text(Concat(sofar), if ended then signature else None)
    case SentThinking(_, signature) => Thinking(Concat(sofar), if ended then signature else None)
    case SentToolCall(id, name, _) =>
      ToolCall(id, name, if sofar == [] then reader.empty else reader.Read(Concat(sofar)),
               if ended then None else Some(Concat(sofar)))
  }

  lemma NextOriginal<A>(reader: Reader<A>, i: int, sent: Sent, n: nat)
    requires 0 < n <= |sent.pieces| + 1
    ensures OnBlock(reader, Some(Original(reader, sent, n)), Script(i, sent)[n]) ==
            Some(Some(Original(reader, sent, n + 1)))
  {
    if n <= |sent.pieces| {
      assert Script(i, sent)[n] == DeltaOf(i, sent, n - 1);
      assert sent.pieces[..n][..n - 1] == sent.pieces[..n - 1];
    }
  }

  lemma FirstOriginal<A>(reader: Reader<A>, i: int, sent: Sent)
    ensures OnBlock(reader, None, Script(i, sent)[0]) == Some(Some(Original(reader, sent, 1)))
  {
    assert sent.pieces[..0] == [];
  }

  lemma ScriptLength(i: int, sent: Sent)
    ensures |Script(i, sent)| == |sent.pieces| + 2
  {
  }

  lemma {:induction false} ScriptRebuildsBlock<A>(reader: Reader<A>, i: int, sent: Sent, n: nat)
    requires 0 < n <= |sent.pieces| + 2
    ensures ReplayBlock(reader, None, Script(i, sent)[..n]) == Some(Some(Original(reader, sent, n)))
  {
    var own := Script(i, sent);
    ScriptLength(i, sent);
    assert own[..n] == own[..n - 1] + [own[n - 1]];
    ReplayBlockSnoc(reader, None, own[..n - 1], own[n - 1]);
    if n == 1 {
      assert own[..0] == [];
      FirstOriginal(reader, i, sent);
    } else {
      ScriptRebuildsBlock(reader, i, sent, n - 1);
      NextOriginal(reader, i, sent, n - 1);
    }
  }

  lemma {:induction false} ReplayBlockConcat<A>(
    reader: Reader<A>, block: Option<Block<A>>, a: seq<ProxyEvent>, b: seq<ProxyEvent>)
    requires ReplayBlock(reader, block, a).Some?
    ensures ReplayBlock(reader, block, a + b) == ReplayBlock(reader, ReplayBlock(reader, block, a).value, b)
  {
    if b == [] {
      assert a + b == a;
    } else {
      var init, last := b[..|b| - 1], b[|b| - 1];
      assert a + b == (a + init) + [last] && b == init + [last];
      ReplayBlockConcat(reader, block, a, init);
      ReplayBlockSnoc(reader, block, a + init, last);
    }
  }

  /**
   * What has been sent at one index: earlier events, any that replay, starts included, and then the first n
   * events of the block that was started last.
   */
  datatype Sending = Sending(earlier: seq<ProxyEvent>, block: Sent, n: nat)

  ghost predicate Carries<A>(reader: Reader<A>, i: int, own: seq<ProxyEvent>, s: Sending) {
    && 0 < s.n <= |s.block.pieces| + 2 && own == s.earlier + Script(i, s.block)[..s.n]
    && ReplayBlock(reader, None, s.earlier).Some?
  }

  /** Whatever came earlier at an index, the block there is what the sender has of the one started last. */
  lemma LatestBlockCounts<A>(reader: Reader<A>, i: int, own: seq<ProxyEvent>, s: Sending)
    requires Carries(reader, i, own, s)
    ensures ReplayBlock(reader, None, own) == Some(Some(Original(reader, s.block, s.n)))
  {
    ScriptLength(i, s.block);
    var script := Script(i, s.block)[..s.n];
    ReplayBlockConcat(reader, None, s.earlier, script);
    assert script == [script[0]] + script[1..] && script[0] == Script(i, s.block)[0];
    ScriptOpens(i, s.block);
    StartForgets(reader, ReplayBlock(reader, None, s.earlier).value, None, script[0], script[1..]);
    ScriptRebuildsBlock(reader, i, s.block, s.n);
  }

  lemma ScriptOpens(i: int, sent: Sent)
    ensures Script(i, sent)[0].Opens()
  {
  }

  /** At an index where nothing was started the only events that do not throw are stray toolcall_ends. */
  lemma {:induction false} StrayEndsLeaveNothing<A>(reader: Reader<A>, own: seq<ProxyEvent>)
    requires forall k :: 0 <= k < |own| ==> own[k].ToolCallEnd?
    ensures ReplayBlock(reader, None, own) == Some(None)
  {
    if own != [] {
      StrayEndsLeaveNothing(reader, own[..|own| - 1]);
    }
  }

  ghost predicate SentIn<A>(reader: Reader<A>, log: seq<ProxyEvent>, sent: map<int, Sending>) {
    forall i :: if i in sent then Carries(reader, i, Own(log, i), sent[i])
                else forall k :: 0 <= k < |Own(log, i)| ==> Own(log, i)[k].ToolCallEnd?
  }

  /** The sender's block at index i, if it has started one. */
  function Held<A>(reader: Reader<A>, sent: map<int, Sending>, i: int): Option<Block<A>> {
    if i in sent && 0 < sent[i].n <= |sent[i].block.pieces| + 2 then Some(Original(reader, sent[i].block, sent[i].n))
      else None
  }

  /**
   * Replay equals original: if each index carries its events in order, blocks started anew included, interleaved
   * with the others' in any way and cut off anywhere, the client holds at every index exactly what the sender
   * has of the block it started there last.
   */
  lemma ReplayEqualsOriginal<A>(reader: Reader<A>, p: Partial<A>, log: seq<ProxyEvent>, sent: map<int, Sending>)
    requires p.content == map[] && SentIn(reader, log, sent)
    ensures Replay(reader, p, log).Some?
    ensures forall i :: Lookup(Replay(reader, p, log).value.content, i) == Held(reader, sent, i)
  {
    forall i ensures ReplayBlock(reader, None, Own(log, i)) == Some(Held(reader, sent, i)) {
      if i in sent {
        LatestBlockCounts(reader, i, Own(log, i), sent[i]);
      } else {
        StrayEndsLeaveNothing(reader, Own(log, i));
      }
    }
    ReplaysIfBlocksDo(reader, p, log);
    forall i ensures Lookup(Replay(reader, p, log).value.content, i) == Held(reader, sent, i) {
      BlocksAreIndependent(reader, p, log, i);
    }
  }

  // ---------- The whole client: chunks to message ----------

  datatype Decoded = Event(event: ProxyEvent) | Unreadable(message: string)

  /** What the consumer is handed: an event of the server, or the error that ends a failed stream. */
  datatype Push<A> = Passed(emitted: Emitted<A>) | Broken(why: Failure)

  /** The message so far, what was pushed, and whether the stream has failed; a failed stream handles nothing more. */
  datatype Outcome<A> = Outcome(message: Partial<A>, pushed: seq<Push<A>>, failed: bool)

  function Fail<A>(o: Outcome<A>, why: Failure): Outcome<A> {
    Outcome(o.message.(stopReason := "error", error := Some(why)), o.pushed + [Broken(why)], true)
  }

  function PushOf<A>(emitted: Option<Emitted<A>>): seq<Push<A>> {
    if emitted.Some? then [Passed(emitted.value)] else []
  }

  function ConsumePayload<A>(reader: Reader<A>, decode: string -> Decoded, o: Outcome<A>, data: string): Outcome<A> {
    if o.failed then o
    else match decode(data)
      case Unreadable(message) => Fail(o, Malformed(message))
      case Event(e) =>
        var after := Apply(reader, o.message, e);
        if after.None? then Fail(o, Mismatched(e))
        else Outcome(after.value, o.pushed + PushOf(Emission(reader, o.message, e)), false)
  }

  function Consume<A>(reader: Reader<A>, decode: string -> Decoded, o: Outcome<A>, lines: seq<string>): Outcome<A> {
    if lines == [] then o
    else
      var before := Consume(reader, decode, o, lines[..|lines| - 1]);
      var payload := Payload(lines[|lines| - 1]);
      if payload.None? then before else ConsumePayload(reader, decode, before, payload.value)
  }

  lemma {:induction false} ConsumeConcat<A>(
    reader: Reader<A>, decode: string -> Decoded, o: Outcome<A>, a: seq<string>, b: seq<string>)
    ensures Consume(reader, decode, o, a + b) == Consume(reader, decode, Consume(reader, decode, o, a), b)
  {
    if b == [] {
      assert a + b == a;
    } else {
      assert (a + b)[..|a + b| - 1] == a + b[..|b| - 1];
      ConsumeConcat(reader, decode, o, a, b[..|b| - 1]);
    }
  }

  lemma {:induction false} FailedStaysFailed<A>(
    reader: Reader<A>, decode: string -> Decoded, o: Outcome<A>, lines: seq<string>)
    requires o.failed
    ensures Consume(reader, decode, o, lines) == o
  {
    if lines != [] {
      FailedStaysFailed(reader, decode, o, lines[..|lines| - 1]);
    }
  }

  /** The stream handed to the consumer. */
  class EventSink<A> {
    var pushed: seq<Push<A>>

    constructor ()
      ensures pushed == []
    {
      pushed := [];
    }

    method Pass(emitted: Option<Emitted<A>>)
      modifies this
      ensures pushed == old(pushed) + PushOf(emitted)
    {
      if emitted.Some? {
        pushed := pushed + [Passed(emitted.value)];
      }
    }
  }

  /** Handles one line; on failure records it in the message and pushes it. */
  method ConsumeLine<A>(
    client: Client<A>, decode: string -> Decoded, line: string, sink: EventSink<A>) returns (failed: bool)
    modifies client, sink
    ensures Outcome(client.Value(), sink.pushed, failed) ==
            Consume(client.reader, decode, Outcome(old(client.Value()), old(sink.pushed), false), [line])
  {
    assert [line][..0] == [];
    var payload, why := Payload(line), None;
    if payload.Some? {
      match decode(payload.value) {
        case Unreadable(message) => why := Some(Malformed(message));
        case Event(e) =>
          var threw, emitted := client.Process(e);
          sink.Pass(emitted);
          if threw { why := Some(Mismatched(e)); }
      }
      if why.Some? {
        client.stopReason, client.error := "error", why;
        sink.pushed := sink.pushed + [Broken(why.value)];
      }
    }
    failed := why.Some?;
  }

  method ConsumeLines<A>(
    client: Client<A>, decode: string -> Decoded, lines: seq<string>, sink: EventSink<A>) returns (failed: bool)
    modifies client, sink
    ensures Outcome(client.Value(), sink.pushed, failed) ==
            Consume(client.reader, decode, Outcome(old(client.Value()), old(sink.pushed), false), lines)
  {
    failed := false;
    ghost var start := Outcome(client.Value(), sink.pushed, false);
    for i := 0 to |lines|
      invariant !failed
      invariant Outcome(client.Value(), sink.pushed, false) == Consume(client.reader, decode, start, lines[..i])
    {
      assert lines[..i + 1] == lines[..i] + [lines[i]];
      ConsumeConcat(client.reader, decode, start, lines[..i], [lines[i]]);
      failed := ConsumeLine(client, decode, lines[i], sink);
      if failed {
        assert lines == lines[..i + 1] + lines[i + 1..];
        ConsumeConcat(client.reader, decode, start, lines[..i + 1], lines[i + 1..]);
        FailedStaysFailed(client.reader, decode, Outcome(client.Value(), sink.pushed, true), lines[i + 1..]);
        return;
      }
    }
    assert lines[..|lines|] == lines;
  }

  /** The read loop of `streamProxy`: message and pushed events depend on the text alone, not on how it was cut. */
  method StreamProxy<A>(
    client: Client<A>, decode: string -> Decoded, chunks: seq<string>, sink: EventSink<A>) returns (failed: bool)
    modifies client, sink
    ensures Outcome(client.Value(), sink.pushed, failed) ==
            Consume(client.reader, decode, Outcome(old(client.Value()), old(sink.pushed), false), Lines(Concat(chunks)))
  {
    failed := false;
    var buffer := "";
    ghost var start := Outcome(client.Value(), sink.pushed, false);
    for i := 0 to |chunks|
      invariant !failed && buffer == Tail(Concat(chunks[..i]))
      invariant Outcome(client.Value(), sink.pushed, false) == ConsumeChunks(client.reader, decode, start, chunks[..i])
    {
      var lines, rest := SplitLines(buffer + chunks[i]);
      NextChunk(client.reader, decode, start, chunks, i);
      buffer := rest;
      failed := ConsumeLines(client, decode, lines, sink);
      if failed {
        FailedChunks(client.reader, decode, start, chunks, i + 1);
        return;
      }
    }
    assert chunks[..|chunks|] == chunks;
  }

  ghost function ConsumeChunks<A>(
    reader: Reader<A>, decode: string -> Decoded, o: Outcome<A>, chunks: seq<string>): Outcome<A> {
    Consume(reader, decode, o, Lines(Concat(chunks)))
  }

  lemma NextChunk<A>(reader: Reader<A>, decode: string -> Decoded, o: Outcome<A>, chunks: seq<string>, i: nat)
    requires i < |chunks|
    ensures var more := Tail(Concat(chunks[..i])) + chunks[i];
            Tail(Concat(chunks[..i + 1])) == Tail(more) &&
            ConsumeChunks(reader, decode, o, chunks[..i + 1]) ==
              Consume(reader, decode, ConsumeChunks(reader, decode, o, chunks[..i]), Lines(more))
  {
    assert chunks[..i + 1][..i] == chunks[..i];
    LinesOfConcat(Concat(chunks[..i]), chunks[i]);
    ConsumeConcat(reader, decode, o, Lines(Concat(chunks[..i])), Lines(Tail(Concat(chunks[..i])) + chunks[i]));
  }

  lemma FailedChunks<A>(reader: Reader<A>, decode: string -> Decoded, o: Outcome<A>, chunks: seq<string>, n: nat)
    requires n <= |chunks| && ConsumeChunks(reader, decode, o, chunks[..n]).failed
    ensures ConsumeChunks(reader, decode, o, chunks) == ConsumeChunks(reader, decode, o, chunks[..n])
  {
    var all, some := Lines(Concat(chunks)), Lines(Concat(chunks[..n]));
    LinesOfPrefix(chunks, n);
    assert all == some + all[|some|..];
    ConsumeConcat(reader, decode, o, some, all[|some|..]);
    FailedStaysFailed(reader, decode, Consume(reader, decode, o, some), all[|some|..]);
  }

  lemma {:induction false} LinesOfPrefix(chunks: seq<string>, n: nat)
    requires n <= |chunks|
    ensures Lines(Concat(chunks[..n])) <= Lines(Concat(chunks))
    decreases |chunks| - n
  {
    if n == |chunks| {
      assert chunks[..n] == chunks;
    } else {
      LinesOfPrefix(chunks, n + 1);
      assert chunks[..n + 1][..n] == chunks[..n];
      LinesOfConcat(Concat(chunks[..n]), chunks[n]);
    }
  }

  /** The events the payloads of some lines decode to. */
  function Events(decode: string -> Decoded, lines: seq<string>): seq<ProxyEvent> {
    if lines == [] then []
    else
      Events(decode, lines[..|lines| - 1]) + EventOf(decode, Payload(lines[|lines| - 1]))
  }

  function EventOf(decode: string -> Decoded, payload: Option<string>): seq<ProxyEvent> {
    if payload.Some? && decode(payload.value).Event? then [decode(payload.value).event] else []
  }

  /** What is pushed for a log that replays. */
  function Emissions<A>(reader: Reader<A>, p: Partial<A>, log: seq<ProxyEvent>): seq<Push<A>>
    requires Replay(reader, p, log).Some?
  {
    if log == [] then []
    else
      var init, last := log[..|log| - 1], log[|log| - 1];
      Emissions(reader, p, init) + PushOf(Emission(reader, Replay(reader, p, init).value, last))
  }

  ghost function Replayed<A>(reader: Reader<A>, p: Partial<A>, log: seq<ProxyEvent>): Outcome<A>
    requires Replay(reader, p, log).Some?
  {
    Outcome(Replay(reader, p, log).value, Emissions(reader, p, log), false)
  }

  lemma OneMorePayload<A>(
    reader: Reader<A>, decode: string -> Decoded, p: Partial<A>, log: seq<ProxyEvent>, payload: Option<string>)
    requires payload.Some? ==> decode(payload.value).Event?
    requires Replay(reader, p, log + EventOf(decode, payload)).Some?
    ensures Replay(reader, p, log).Some?
    ensures var before := Replayed(reader, p, log);
            Replayed(reader, p, log + EventOf(decode, payload)) ==
              if payload.None? then before else ConsumePayload(reader, decode, before, payload.value)
  {
    var more := log + EventOf(decode, payload);
    if payload.Some? {
      assert more[..|more| - 1] == log;
    } else {
      assert more == log;
    }
  }

  /** All data in these lines is readable. */
  predicate Readable(decode: string -> Decoded, lines: seq<string>) {
    forall i :: 0 <= i < |lines| ==> Payload(lines[i]).Some? ==> decode(Payload(lines[i]).value).Event?
  }

  /** A readable text whose events fit is consumed as their replay, and what is passed on is pushed in order. */
  lemma {:induction false} ConsumeIsReplay<A>(
    reader: Reader<A>, decode: string -> Decoded, p: Partial<A>, lines: seq<string>)
    requires Readable(decode, lines) && Replay(reader, p, Events(decode, lines)).Some?
    ensures Consume(reader, decode, Outcome(p, [], false), lines) == Replayed(reader, p, Events(decode, lines))
  {
    if lines != [] {
      var init, last := lines[..|lines| - 1], lines[|lines| - 1];
      assert Readable(decode, init);
      OneMorePayload(reader, decode, p, Events(decode, init), Payload(last));
      ConsumeIsReplay(reader, decode, p, init);
    }
  }

  /** The events pushed for a log are those of the log, in order, without the ones that are not passed on. */
  ghost predicate PassedOn<A>(log: seq<ProxyEvent>, pushed: seq<Push<A>>) {
    if log == [] then pushed == []
    else
      var init, last := log[..|log| - 1], log[|log| - 1];
      || (pushed != [] && pushed[|pushed| - 1].Passed? && pushed[|pushed| - 1].emitted.event == last &&
          PassedOn(init, pushed[..|pushed| - 1]))
      || ((last.Unknown? || last.ToolCallEnd?) && PassedOn(init, pushed))
  }

  lemma {:induction false} LogIsPassedOn<A>(reader: Reader<A>, p: Partial<A>, log: seq<ProxyEvent>)
    requires Replay(reader, p, log).Some?
    ensures PassedOn(log, Emissions(reader, p, log))
  {
    if log != [] {
      var init, last := log[..|log| - 1], log[|log| - 1];
      LogIsPassedOn(reader, p, init);
      var before, all := Emissions(reader, p, init), Emissions(reader, p, log);
      if Emission(reader, Replay(reader, p, init).value, last).Some? {
        assert all[..|all| - 1] == before;
      } else {
        assert all == before;
      }
    }
  }

  /**
   * End to end: any chunking of a text that carries a sender's interleaved blocks, started anew any number of
   * times, rebuilds the blocks it started last, and hands its events on in order.
   */
  lemma SentBlocksArrive<A>(
    reader: Reader<A>, decode: string -> Decoded, p: Partial<A>, chunks: seq<string>, sent: map<int, Sending>)
    requires p.content == map[] && Readable(decode, Lines(Concat(chunks)))
    requires SentIn(reader, Events(decode, Lines(Concat(chunks))), sent)
    ensures var o := Consume(reader, decode, Outcome(p, [], false), Lines(Concat(chunks)));
            !o.failed && PassedOn(Events(decode, Lines(Concat(chunks))), o.pushed) &&
            o.message.content.Keys == sent.Keys && forall i :: Lookup(o.message.content, i) == Held(reader, sent, i)
  {
    var lines := Lines(Concat(chunks));
    var log := Events(decode, lines);
    ReplayEqualsOriginal(reader, p, log, sent);
    ConsumeIsReplay(reader, decode, p, lines);
    LogIsPassedOn(reader, p, log);
    SameIndices(reader, log, sent, Replay(reader, p, log).value.content);
  }

  lemma SameIndices<A>(reader: Reader<A>, log: seq<ProxyEvent>, sent: map<int, Sending>, content: map<int, Block<A>>)
    requires SentIn(reader, log, sent) && forall i :: Lookup(content, i) == Held(reader, sent, i)
    ensures content.Keys == sent.Keys
  {
    forall i ensures i in content <==> i in sent {
      assert Lookup(content, i) == Held(reader, sent, i);
      assert i in sent ==> Carries(reader, i, Own(log, i), sent[i]);
    }
  }
}
