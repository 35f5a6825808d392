/** The line framing of a proxied stream: text arrives in arbitrary chunks, whole lines are handled. */
module LineFraming {
  import opened Folds
  import opened Options
  import opened Sequences

  /** The newline-terminated lines of a text, without their newlines. */
  function Lines(text: string): seq<string>
    decreases |text|
  {
    var i := FirstNewline(text);
    if i == |text| then [] else [text[..i]] + Lines(text[i + 1..])
  }

  /** What follows the last newline. */
  function Tail(text: string): string
    decreases |text|
  {
    var i := FirstNewline(text);
    if i == |text| then text else Tail(text[i + 1..])
  }

  predicate Clean(s: string) {
    forall k :: 0 <= k < |s| ==> s[k] != '\n'
  }

  function FirstNewline(text: string): (i: nat)
    ensures i <= |text| && (forall k :: 0 <= k < i ==> text[k] != '\n') && (i < |text| ==> text[i] == '\n')
  {
    if text == [] || text[0] == '\n' then 0 else 1 + FirstNewline(text[1..])
  }

  function Join(lines: seq<string>): string {
    if lines == [] then [] else lines[0] + ['\n'] + Join(lines[1..])
  }

  function Concat(chunks: seq<string>): string {
    if chunks == [] then [] else Concat(chunks[..|chunks| - 1]) + chunks[|chunks| - 1]
  }

  /** Putting the lines and the tail back together gives the text. */
  lemma {:induction false} LinesJoinToText(text: string)
    ensures Join(Lines(text)) + Tail(text) == text
    decreases |text|
  {
    var i := FirstNewline(text);
    if i < |text| {
      var first, rest := text[..i], text[i + 1..];
      LinesJoinToText(rest);
      assert Lines(text)[1..] == Lines(rest);
      Assoc(first + ['\n'], Join(Lines(rest)), Tail(rest));
      assert text == first + ['\n'] + rest;
    } else {
      assert Join([]) + text == text;
    }
  }

  lemma {:induction false} LinesAreClean(text: string)
    ensures Clean(Tail(text)) && forall k :: 0 <= k < |Lines(text)| ==> Clean(Lines(text)[k])
    decreases |text|
  {
    var i := FirstNewline(text);
    if i < |text| {
      LinesAreClean(text[i + 1..]);
    }
  }

  lemma LinesOfFirst(first: string, rest: string)
    requires Clean(first)
    ensures Lines(first + ['\n'] + rest) == [first] + Lines(rest)
    ensures Tail(first + ['\n'] + rest) == Tail(rest)
  {
    var text := first + ['\n'] + rest;
    assert text[|first|] == '\n';
    assert forall k :: 0 <= k < |first| ==> text[k] == first[k];
    assert FirstNewline(text) == |first|;
    assert text[..|first|] == first && text[|first| + 1..] == rest;
  }

  /** There is only one way to cut a text into newline-terminated lines and a tail without a newline. */
  lemma {:induction false} FramingUnique(lines: seq<string>, tail: string)
    requires Clean(tail) && forall k :: 0 <= k < |lines| ==> Clean(lines[k])
    ensures Lines(Join(lines) + tail) == lines && Tail(Join(lines) + tail) == tail
  {
    if lines == [] {
      assert [] + tail == tail;
      assert FirstNewline(tail) == |tail|;
    } else {
      FramingUnique(lines[1..], tail);
      LinesOfFirst(lines[0], Join(lines[1..]) + tail);
      Assoc(lines[0] + ['\n'], Join(lines[1..]), tail);
      assert lines == [lines[0]] + lines[1..];
    }
  }

  lemma {:induction false} JoinConcat(a: seq<string>, b: seq<string>)
    ensures Join(a + b) == Join(a) + Join(b)
  {
    if a == [] {
      assert a + b == b && [] + Join(b) == Join(b);
    } else {
      JoinConcat(a[1..], b);
      assert (a + b)[1..] == a[1..] + b;
      Assoc(a[0] + ['\n'], Join(a[1..]), Join(b));
    }
  }

  /** Text that arrives later only ever completes the tail. */
  lemma LinesOfConcat(a: string, b: string)
    ensures Lines(a + b) == Lines(a) + Lines(Tail(a) + b)
    ensures Tail(a + b) == Tail(Tail(a) + b)
  {
    var more := Tail(a) + b;
    LinesJoinToText(a);
    LinesJoinToText(more);
    LinesAreClean(a);
    LinesAreClean(more);
    JoinConcat(Lines(a), Lines(more));
    Assoc(Join(Lines(a)), Join(Lines(more)), Tail(more));
    Assoc(Join(Lines(a)), Tail(a), b);
    FramingUnique(Lines(a) + Lines(more), Tail(more));
  }

  /** `split("\n")` and `pop`: the complete lines, and the unterminated rest to keep. */
  method SplitLines(buffer: string) returns (lines: seq<string>, rest: string)
    ensures lines == Lines(buffer) && rest == Tail(buffer)
  {
    lines, rest := [], buffer;
    while true
      invariant lines + Lines(rest) == Lines(buffer) && Tail(rest) == Tail(buffer)
      decreases |rest|
    {
      var i := FirstNewline(rest);
      if i == |rest| {
        assert Lines(rest) == [] && lines + [] == lines;
        return;
      }
      assert lines + ([rest[..i]] + Lines(rest[i + 1..])) == (lines + [rest[..i]]) + Lines(rest[i + 1..]);
      lines, rest := lines + [rest[..i]], rest[i + 1..];
    }
  }

  /** Where the read loop stands: what it has handled, and the unterminated rest in its buffer. */
  datatype Framing = Framing(handled: seq<string>, buffer: string)

  /** One chunk joins the buffer, and the lines it completes are handled. */
  function Feed(f: Framing, chunk: string): Framing {
    Framing(f.handled + Lines(f.buffer + chunk), Tail(f.buffer + chunk))
  }

  function Fed(chunks: seq<string>): Framing {
    Fold(Feed, Framing([], ""), chunks)
  }

  /**
   * Chunk by chunk, exactly the newline-terminated lines of the whole text are handled, in order, and never its tail.
   */
  lemma {:induction false} FedIsWhole(chunks: seq<string>)
    ensures Fed(chunks) == Framing(Lines(Concat(chunks)), Tail(Concat(chunks)))
  {
    if chunks != [] {
      var init := chunks[..|chunks| - 1];
      FedIsWhole(init);
      LinesOfConcat(Concat(init), chunks[|chunks| - 1]);
    }
  }

  /** Two ways of cutting the same text into chunks leave the loop in the same place. */
  lemma {:induction false} ChunkingInvariance(a: seq<string>, b: seq<string>)
    requires Concat(a) == Concat(b)
    ensures Fed(a) == Fed(b)
  {
    FedIsWhole(a);
    FedIsWhole(b);
  }

  /** The read loop. */
  method ReadLoop(chunks: seq<string>) returns (handled: seq<string>, buffer: string)
    ensures Framing(handled, buffer) == Fed(chunks)
    ensures handled == Lines(Concat(chunks)) && buffer == Tail(Concat(chunks))
  {
    handled, buffer := [], "";
    for i := 0 to |chunks|
      invariant Framing(handled, buffer) == Fed(chunks[..i])
    {
      assert chunks[..i + 1][..i] == chunks[..i];
      var lines;
      lines, buffer := SplitLines(buffer + chunks[i]);
      handled := handled + lines;
    }
    assert chunks[..|chunks|] == chunks;
    FedIsWhole(chunks);
  }

  // ---------- From a line to its payload ----------

  const PREFIX: string := "data: "

  /** White space and line terminators, as `trim` sees them. */
  predicate IsSpace(c: char) {
    || '\t' <= c <= '\r' || c == ' ' || c == '\U{A0}' || c == '\U{1680}' || '\U{2000}' <= c <= '\U{200A}'
    || c == '\U{2028}' || c == '\U{2029}' || c == '\U{202F}' || c == '\U{205F}' || c == '\U{3000}' || c == '\U{FEFF}'
  }

  function TrimStart(s: string): string {
    if s != [] && IsSpace(s[0]) then TrimStart(s[1..]) else s
  }

  function TrimEnd(s: string): string {
    if s != [] && IsSpace(s[|s| - 1]) then TrimEnd(s[..|s| - 1]) else s
  }

  /** The payload a line carries, if any; other lines are skipped. */
  function Payload(line: string): Option<string> {
    if PREFIX <= line then
      var data := TrimEnd(TrimStart(line[|PREFIX|..]));
      if data != [] then Some(data) else None
    else None
  }
}
