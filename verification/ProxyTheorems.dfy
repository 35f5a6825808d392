/** What the proxy client makes of single events, of a failure and of a line, told without its own functions. */
module ProxyTheorems {
  import opened Options
  import opened LineFraming
  import opened ProxyPartial

  // ---------- One event ----------

  /** Deltas and the ends of text and thinking need a block of their own kind at their index; nothing else does. */
  ghost predicate Fits<A>(content: map<int, Block<A>>, e: ProxyEvent) {
    && (e.TextDelta? || e.TextEnd? ==> e.index in content && content[e.index].Text?)
    && (e.ThinkingDelta? || e.ThinkingEnd? ==> e.index in content && content[e.index].Thinking?)
    && (e.ToolCallDelta? ==> e.index in content && content[e.index].ToolCall?)
  }

  /** An event throws if and only if it does not fit. */
  lemma ThrowsExactly<A>(reader: Reader<A>, p: Partial<A>, e: ProxyEvent)
    ensures Apply(reader, p, e).None? <==> !Fits(p.content, e)
  {
  }

  /** A toolcall_end with no call at its index. */
  ghost predicate IsStray<A>(content: map<int, Block<A>>, e: ProxyEvent) {
    e.ToolCallEnd? && !(e.index in content && content[e.index].ToolCall?)
  }

  /** Events that no block takes notice of. */
  ghost predicate LeavesBlocks<A>(content: map<int, Block<A>>, e: ProxyEvent) {
    e.Start? || e.Done? || e.Failed? || e.Unknown? || IsStray(content, e)
  }

  /** The JSON a tool call has received: once it has ended, the word that stands for none. */
  ghost predicate HasJson<A>(block: Block<A>, json: string)
    requires block.ToolCall?
  {
    if block.partialJson.Some? then json == block.partialJson.value else json == "undefined"
  }

  /** What reading this JSON gives: what the parser makes of it, or no arguments. */
  ghost predicate IsRead<A>(reader: Reader<A>, json: string, arguments: A) {
    if reader.parse(json).Some? then reader.parse(json) == Some(arguments) else arguments == reader.empty
  }

  /** What the event leaves at its index. */
  ghost predicate Becomes<A>(reader: Reader<A>, content: map<int, Block<A>>, e: ProxyEvent, after: Block<A>)
    requires e.OnBlock() && Fits(content, e) && !IsStray(content, e)
  {
    match e
    case TextStart(_) => after == Text("", None)
    case ThinkingStart(_) => after == Thinking("", None)
    case ToolCallStart(_, id, name) => after == ToolCall(id, name, reader.empty, Some(""))
    case TextDelta(i, delta) => after == Text(content[i].text + delta, content[i].signature)
    case ThinkingDelta(i, delta) => after == Thinking(content[i].thinking + delta, content[i].thinkingSignature)
    case TextEnd(i, signature) => after == Text(content[i].text, signature)
    case ThinkingEnd(i, signature) => after == Thinking(content[i].thinking, signature)
    case ToolCallEnd(i) => after == ToolCall(content[i].id, content[i].name, content[i].arguments, None)
    case ToolCallDelta(i, delta) =>
      && after.ToolCall? && after.id == content[i].id && after.name == content[i].name
      && after.partialJson.Some? && IsRead(reader, after.partialJson.value, after.arguments)
      && exists json :: HasJson(content[i], json) && after.partialJson.value == json + delta
    case _ => true
  }

  /** An event that fits changes at most the block at its index, and that as its kind says. */
  lemma ChangesExactly<A>(reader: Reader<A>, p: Partial<A>, e: ProxyEvent)
    requires Fits(p.content, e)
    ensures var after := Apply(reader, p, e);
            after.Some? &&
            if LeavesBlocks(p.content, e) then after.value.content == p.content
            else after.value.content.Keys == p.content.Keys + {e.index} &&
                 Becomes(reader, p.content, e, after.value.content[e.index]) &&
                 forall i :: i in p.content && i != e.index ==> after.value.content[i] == p.content[i]
  {
    if e.ToolCallDelta? {
      var block := p.content[e.index];
      var json := if block.partialJson.Some? then block.partialJson.value else "undefined";
      assert HasJson(block, json);
    }
  }

  /** Only done and error settle how the message ended; done leaves an earlier error as it was. */
  lemma SettlesExactly<A>(reader: Reader<A>, p: Partial<A>, e: ProxyEvent)
    requires Fits(p.content, e)
    ensures var after := Apply(reader, p, e).value;
            match e
            case Done(reason, usage) => after.stopReason == reason && after.usage == usage && after.error == p.error
            case Failed(reason, message, usage) =>
              after.stopReason == reason && after.usage == usage &&
              (message.None? ==> after.error.None?) &&
              (message.Some? ==> after.error == Some(Reported(message.value)))
            case _ => after.stopReason == p.stopReason && after.usage == p.usage && after.error == p.error
  {
  }

  /** All events that fit are passed on except unknown ones and strays; an end carries the block as it then stands. */
  lemma PassesExactly<A>(reader: Reader<A>, p: Partial<A>, e: ProxyEvent)
    requires Fits(p.content, e)
    ensures Apply(reader, p, e).Some?
    ensures var passed := Emission(reader, p, e);
            (passed.None? <==> e.Unknown? || IsStray(p.content, e)) &&
            (passed.Some? ==>
               passed.value.event == e &&
               (passed.value.completed.Some? <==> e.TextEnd? || e.ThinkingEnd? || e.ToolCallEnd?) &&
               (passed.value.completed.Some? ==> Becomes(reader, p.content, e, passed.value.completed.value)))
  {
    ChangesExactly(reader, p, e);
  }

  // ---------- How a message ends ----------

  ghost predicate NoneSettlesFrom(log: seq<ProxyEvent>, k: nat) {
    forall j :: k <= j < |log| ==> !log[j].Done? && !log[j].Failed?
  }

  /** Stop reason and usage are those of the last done or error of the log, or else those before it. */
  ghost predicate IsSettledBy<A>(log: seq<ProxyEvent>, before: Partial<A>, after: Partial<A>) {
    && (NoneSettlesFrom(log, 0) ==>
          after.stopReason == before.stopReason && after.usage == before.usage && after.error == before.error)
    && (forall k: nat :: k < |log| && (log[k].Done? || log[k].Failed?) && NoneSettlesFrom(log, k + 1) ==>
          after.stopReason == log[k].reason && after.usage == log[k].usage)
  }

  lemma NoneSettlesInit(log: seq<ProxyEvent>, e: ProxyEvent, k: nat)
    requires k <= |log|
    ensures NoneSettlesFrom(log + [e], k) <==> NoneSettlesFrom(log, k) && !e.Done? && !e.Failed?
  {
    var more := log + [e];
    assert more[|log|] == e && forall j :: 0 <= j < |log| ==> more[j] == log[j];
  }

  lemma SettledOneMore<A>(
    log: seq<ProxyEvent>, e: ProxyEvent, before: Partial<A>, middle: Partial<A>, after: Partial<A>)
    requires IsSettledBy(log, before, middle)
    requires if e.Done? || e.Failed? then after.stopReason == e.reason && after.usage == e.usage
             else after.stopReason == middle.stopReason && after.usage == middle.usage && after.error == middle.error
    ensures IsSettledBy(log + [e], before, after)
  {
    var more := log + [e];
    NoneSettlesInit(log, e, 0);
    forall k: nat | k < |log| && NoneSettlesFrom(more, k + 1)
      ensures more[k] == log[k] && NoneSettlesFrom(log, k + 1) && !e.Done? && !e.Failed?
    {
      NoneSettlesInit(log, e, k + 1);
    }
  }

  /** The last done or error of a log decides stop reason and usage; without one they are as before. */
  lemma {:induction false} LastSettles<A>(reader: Reader<A>, p: Partial<A>, log: seq<ProxyEvent>)
    ensures Replay(reader, p, log).Some? ==> IsSettledBy(log, p, Replay(reader, p, log).value)
  {
    if log != [] && Replay(reader, p, log).Some? {
      var init, e := log[..|log| - 1], log[|log| - 1];
      var middle := Replay(reader, p, init).value;
      assert log == init + [e];
      LastSettles(reader, p, init);
      ThrowsExactly(reader, middle, e);
      SettlesExactly(reader, middle, e);
      SettledOneMore(init, e, p, middle, Replay(reader, p, log).value);
    }
  }

  // ---------- How a stream fails ----------

  /** Line k carries data that cannot be read, or an event that does not fit what the lines before it have built. */
  ghost predicate FailsAt<A>(
    decode: string -> Decoded, message: Partial<A>, line: string, why: Failure)
  {
    Payload(line).Some? &&
    match decode(Payload(line).value)
    case Unreadable(text) => why == Malformed(text)
    case Event(e) => !Fits(message.content, e) && why == Mismatched(e)
  }

  /** The stream as it stood before the failure, with the failure recorded in the message and pushed last. */
  ghost predicate IsFailureOf<A>(o: Outcome<A>, before: Outcome<A>, why: Failure) {
    && o.failed && o.pushed == before.pushed + [Broken(why)]
    && o.message == before.message.(stopReason := "error", error := Some(why))
  }

  lemma LineFailsExactly<A>(reader: Reader<A>, decode: string -> Decoded, before: Outcome<A>, line: string)
    requires !before.failed
    ensures var o := Consume(reader, decode, before, [line]);
            if o.failed then exists why :: FailsAt(decode, before.message, line, why) && IsFailureOf(o, before, why)
            else forall why :: !FailsAt(decode, before.message, line, why)
  {
    assert [line][..0] == [];
    assert Consume(reader, decode, before, []) == before;
    var o := Consume(reader, decode, before, [line]);
    if Payload(line).Some? {
      match decode(Payload(line).value) {
        case Unreadable(text) => assert FailsAt(decode, before.message, line, Malformed(text));
        case Event(e) =>
          ThrowsExactly(reader, before.message, e);
          assert o.failed ==> FailsAt(decode, before.message, line, Mismatched(e));
      }
    }
  }

  /**
   * A stream fails at the first line that cannot be read or whose event does not fit: everything before it counts,
   * the failure is recorded and pushed, and nothing after it is looked at.
   */
  lemma {:induction false} StopsAtFirstFailure<A>(
    reader: Reader<A>, decode: string -> Decoded, start: Outcome<A>, lines: seq<string>) returns (k: nat)
    requires !start.failed
    ensures k <= |lines| && !Consume(reader, decode, start, lines[..k]).failed
    ensures var before, o := Consume(reader, decode, start, lines[..k]), Consume(reader, decode, start, lines);
            if k == |lines| then o == before
            else exists why :: FailsAt(decode, before.message, lines[k], why) && IsFailureOf(o, before, why)
  {
    if lines == [] {
      k := 0;
    } else {
      var init, last := lines[..|lines| - 1], lines[|lines| - 1];
      k := StopsAtFirstFailure(reader, decode, start, init);
      assert lines == init + [last];
      ConsumeConcat(reader, decode, start, init, [last]);
      if k < |init| {
        assert lines[..k] == init[..k];
        FailedStaysFailed(reader, decode, Consume(reader, decode, start, init), [last]);
      } else {
        assert init[..k] == init && lines[..|init|] == init;
        LineFailsExactly(reader, decode, Consume(reader, decode, start, init), last);
        if !Consume(reader, decode, start, lines).failed {
          k := |lines|;
          assert lines[..k] == lines;
        }
      }
    }
  }

  // ---------- What a line carries ----------

  ghost predicate AllSpace(s: string) {
    forall i :: 0 <= i < |s| ==> IsSpace(s[i])
  }

  /** The data does not begin or end with white space. */
  ghost predicate IsTrimmed(data: string) {
    data != [] && !IsSpace(data[0]) && !IsSpace(data[|data| - 1])
  }

  lemma SpaceConcat(a: string, b: string)
    requires AllSpace(a) && AllSpace(b)
    ensures AllSpace(a + b)
  {
  }

  lemma OneSpace(c: char)
    requires IsSpace(c)
    ensures AllSpace([c])
  {
  }

  lemma {:induction false} TrimStartCuts(s: string) returns (cut: string)
    ensures s == cut + TrimStart(s) && AllSpace(cut)
    ensures TrimStart(s) != [] ==> !IsSpace(TrimStart(s)[0])
  {
    cut := [];
    if s != [] && IsSpace(s[0]) {
      cut := TrimStartCuts(s[1..]);
      OneSpace(s[0]);
      SpaceConcat([s[0]], cut);
      cut := [s[0]] + cut;
    }
  }

  lemma {:induction false} TrimEndCuts(s: string) returns (cut: string)
    ensures s == TrimEnd(s) + cut && AllSpace(cut)
    ensures TrimEnd(s) != [] ==> !IsSpace(TrimEnd(s)[|TrimEnd(s)| - 1])
  {
    cut := [];
    if s != [] && IsSpace(s[|s| - 1]) {
      cut := TrimEndCuts(s[..|s| - 1]);
      OneSpace(s[|s| - 1]);
      SpaceConcat(cut, [s[|s| - 1]]);
      cut := cut + [s[|s| - 1]];
    }
  }

  /** The line is the prefix and then data with only white space around it. */
  ghost predicate Carries(line: string, before: string, data: string, after: string) {
    line == PREFIX + before + data + after && AllSpace(before) && AllSpace(after)
  }

  lemma TrimCuts(s: string) returns (before: string, after: string)
    ensures s == before + (TrimEnd(TrimStart(s)) + after) && AllSpace(before) && AllSpace(after)
    ensures TrimEnd(TrimStart(s)) != [] ==> IsTrimmed(TrimEnd(TrimStart(s)))
  {
    before := TrimStartCuts(s);
    after := TrimEndCuts(TrimStart(s));
    var data := TrimEnd(TrimStart(s));
    assert data != [] ==> TrimStart(s)[0] == data[0];
  }

  /** A line carries data exactly if it starts with the prefix and is not blank after it; and then that, trimmed. */
  lemma PayloadExactly(line: string) returns (before: string, after: string)
    ensures match Payload(line)
            case Some(data) => IsTrimmed(data) && Carries(line, before, data, after)
            case None => PREFIX <= line ==> AllSpace(line[|PREFIX|..])
  {
    before, after := "", "";
    if PREFIX <= line {
      before, after := TrimCuts(line[|PREFIX|..]);
      CarriesWhole(line, before, TrimEnd(TrimStart(line[|PREFIX|..])), after);
    }
  }

  lemma CarriesWhole(line: string, before: string, data: string, after: string)
    requires PREFIX <= line && line[|PREFIX|..] == before + (data + after) && AllSpace(before) && AllSpace(after)
    ensures Carries(line, before, data, after)
    ensures data == [] ==> AllSpace(line[|PREFIX|..])
  {
    assert line == PREFIX + line[|PREFIX|..];
    if data == [] {
      assert line[|PREFIX|..] == before + after;
      SpaceConcat(before, after);
    }
  }

  lemma {:induction false} TrimStartOf(space: string, rest: string)
    requires AllSpace(space) && rest != [] && !IsSpace(rest[0])
    ensures TrimStart(space + rest) == rest
  {
    if space == [] {
      assert space + rest == rest;
    } else {
      assert (space + rest)[1..] == space[1..] + rest;
      TrimStartOf(space[1..], rest);
    }
  }

  lemma {:induction false} TrimEndOf(rest: string, space: string)
    requires AllSpace(space) && rest != [] && !IsSpace(rest[|rest| - 1])
    ensures TrimEnd(rest + space) == rest
  {
    if space == [] {
      assert rest + space == rest;
    } else {
      assert (rest + space)[..|rest + space| - 1] == rest + space[..|space| - 1];
      TrimEndOf(rest, space[..|space| - 1]);
    }
  }

  /** And whatever trimmed data a line carries between white space, that is what it is read as. */
  lemma CarriedIsPayload(line: string, before: string, data: string, after: string)
    requires IsTrimmed(data) && Carries(line, before, data, after)
    ensures Payload(line) == Some(data)
  {
    assert line[|PREFIX|..] == before + (data + after);
    TrimStartOf(before, data + after);
    TrimEndOf(data, after);
  }
}
