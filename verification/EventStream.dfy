/** `writeStream` as a printer of server-sent events (internal/httpapi/server.go), and the reader it
    writes for: the event stream interpretation of sections 9.2.5 and 9.2.6 of the WHATWG HTML Living
    Standard. */
module EventStream {
  import opened Capabilities
  import Relay
  import RelayEnding

  // ---------------------------------------------------------------- the reader

  datatype Event = Event(kind: string, data: string, lastId: string)

  /** The reader's buffers: event type, data, last event ID. */
  datatype Buffers = Buffers(kind: string, data: string, id: string)

  const FRESH := Buffers("", "", "")

  predicate IsBreak(c: char) { c == '\r' || c == '\n' }

  predicate LineFree(s: string) {
    forall i :: 0 <= i < |s| ==> !IsBreak(s[i])
  }

  /** The first position holding one of CR and LF, or the length. */
  function FirstBreak(s: string): (k: nat)
    ensures k <= |s| && LineFree(s[..k]) && (k < |s| ==> IsBreak(s[k]))
  {
    if s == "" || IsBreak(s[0]) then 0
    else
      var k := FirstBreak(s[1..]);
      assert forall i :: 1 <= i < k + 1 ==> s[i] == s[1..][..k][i - 1];
      1 + k
  }

  /** The first position of `c`, or the length. */
  function IndexOf(s: string, c: char): (k: nat)
    ensures k <= |s| && c !in s[..k] && (k < |s| ==> s[k] == c)
  {
    if s == "" || s[0] == c then 0
    else
      var k := IndexOf(s[1..], c);
      assert s[..k + 1] == [s[0]] + s[1..][..k];
      1 + k
  }

  function Field(name: string, value: string, b: Buffers): Buffers {
    if name == "event" then b.(kind := value)
    else if name == "data" then b.(data := b.data + value + "\n")
    else if name == "id" && '\0' !in value then b.(id := value)
    else b
  }

  /** One complete line: the buffers after it, and the event it dispatches, if any. */
  function Line(line: string, b: Buffers): (Buffers, seq<Event>) {
    if line == "" then
      if b.data == "" then (b.(kind := "", data := ""), [])
      else
        var data := if b.data[|b.data| - 1] == '\n' then b.data[..|b.data| - 1] else b.data;
        (Buffers("", "", b.id), [Event(if b.kind == "" then "message" else b.kind, data, b.id)])
    else if line[0] == ':' then (b, [])
    else
      var k := IndexOf(line, ':');
      if k == |line| then (Field(line, "", b), [])
      else
        var value := line[k + 1..];
        (Field(line[..k], if value != "" && value[0] == ' ' then value[1..] else value, b), [])
  }

  /** All complete lines; a line or event the stream breaks off in is discarded. */
  function ReadLines(s: string, b: Buffers): seq<Event>
    decreases |s|
  {
    var k := FirstBreak(s);
    if k == |s| then []
    else
      var rest := if s[k] == '\r' && k + 1 < |s| && s[k + 1] == '\n' then s[k + 2..] else s[k + 1..];
      var (b', events) := Line(s[..k], b);
      events + ReadLines(rest, b')
  }

  /** The whole stream; one leading byte order mark is ignored. */
  function Read(s: string): seq<Event> {
    ReadLines(if s != "" && s[0] == '\U{FEFF}' then s[1..] else s, FRESH)
  }

  // ---------------------------------------------------------------- the writer

  /** `json.Marshal`, of a chunk and of `{"error": e}`. */
  datatype Encoder = Encoder(chunk: ChatChunk -> string, error: UpstreamError -> string)

  function Print(enc: Encoder, frame: Relay.Action): string {
    match frame
    case DataFrame(c) => "data: " + enc.chunk(c) + "\n\n"
    case ErrorFrame(e) => "event: error\ndata: " + enc.error(e) + "\n\n"
    case DoneFrame => "data: [DONE]\n\n"
    case _ => ""
  }

  function PrintAll(enc: Encoder, frames: seq<Relay.Action>): string {
    if frames == [] then "" else Print(enc, frames[0]) + PrintAll(enc, frames[1..])
  }

  /** `writeStream`, given the chunks that come out of its channel before it is closed: it stops at the
      first error chunk, and otherwise ends with `[DONE]`. */
  method WriteStream(chunks: seq<ResponseChunk>, enc: Encoder) returns (out: string, read: nat)
    ensures read <= |chunks| && ErrorOnlyLast(chunks[..read])
    ensures read == |chunks| || !ErrorFree(chunks[..read])
    ensures out == PrintAll(enc, RelayEnding.FramesOf(chunks[..read])
                                 + if ErrorFree(chunks) then [Relay.DoneFrame] else [])
  {
    out, read := "", 0;
    while read < |chunks|
      invariant read <= |chunks| && ErrorFree(chunks[..read])
      invariant out == PrintAll(enc, RelayEnding.FramesOf(chunks[..read]))
    {
      var c := chunks[read];
      OneMoreChunk(enc, chunks, read);
      read := read + 1;
      if c.error.Some? {
        out := out + ("event: error\ndata: " + enc.error(c.error.value) + "\n\n");
        PrintOne(enc, Relay.ErrorFrame(c.error.value));
        assert !ErrorFree(chunks) by { assert chunks[read - 1].error.Some?; }
        assert RelayEnding.FramesOf(chunks[..read]) + [] == RelayEnding.FramesOf(chunks[..read]);
        return;
      }
      if c.chunk.Some? {
        PrintOne(enc, Relay.DataFrame(c.chunk.value));
        out := out + ("data: " + enc.chunk(c.chunk.value) + "\n\n");
      }
    }
    assert chunks[..read] == chunks;
    PrintAppend(enc, RelayEnding.FramesOf(chunks), [Relay.DoneFrame]);
    PrintOne(enc, Relay.DoneFrame);
    out := out + "data: [DONE]\n\n";
  }

  lemma OneMoreChunk(enc: Encoder, chunks: seq<ResponseChunk>, n: nat)
    requires n < |chunks|
    ensures PrintAll(enc, RelayEnding.FramesOf(chunks[..n + 1]))
         == PrintAll(enc, RelayEnding.FramesOf(chunks[..n])) + PrintAll(enc, Relay.Frames(chunks[n]))
    ensures ErrorFree(chunks[..n + 1]) <==> ErrorFree(chunks[..n]) && chunks[n].error.None?
    ensures ErrorFree(chunks[..n]) ==> ErrorOnlyLast(chunks[..n + 1])
  {
    assert chunks[..n + 1] == chunks[..n] + [chunks[n]];
    RelayEnding.FramesOfSnoc(chunks[..n], chunks[n]);
    PrintAppend(enc, RelayEnding.FramesOf(chunks[..n]), Relay.Frames(chunks[n]));
    ErrorFreeSnoc(chunks[..n], chunks[n]);
  }

  lemma PrintOne(enc: Encoder, frame: Relay.Action)
    ensures PrintAll(enc, [frame]) == Print(enc, frame)
  {
    assert PrintAll(enc, [frame][1..]) == "";
  }

  lemma {:induction false} PrintAppend(enc: Encoder, a: seq<Relay.Action>, b: seq<Relay.Action>)
    ensures PrintAll(enc, a + b) == PrintAll(enc, a) + PrintAll(enc, b)
  {
    if a == [] {
      assert a + b == b;
    } else {
      assert (a + b)[1..] == a[1..] + b;
      PrintAppend(enc, a[1..], b);
    }
  }

  /** What is printed, chunk by chunk. */
  lemma PrintedMeans(enc: Encoder, chunks: seq<ResponseChunk>, c: ResponseChunk)
    ensures PrintAll(enc, RelayEnding.FramesOf([])) == ""
    ensures PrintAll(enc, RelayEnding.FramesOf(chunks + [c]))
         == PrintAll(enc, RelayEnding.FramesOf(chunks))
            + if c.error.Some? then "event: error\ndata: " + enc.error(c.error.value) + "\n\n"
              else if c.chunk.Some? then "data: " + enc.chunk(c.chunk.value) + "\n\n"
              else ""
    ensures PrintAll(enc, RelayEnding.FramesOf(chunks) + [Relay.DoneFrame])
         == PrintAll(enc, RelayEnding.FramesOf(chunks)) + "data: [DONE]\n\n"
  {
    RelayEnding.FramesOfSnoc(chunks, c);
    PrintAppend(enc, RelayEnding.FramesOf(chunks), Relay.Frames(c));
    PrintAppend(enc, RelayEnding.FramesOf(chunks), [Relay.DoneFrame]);
    PrintOne(enc, Relay.DoneFrame);
    var frames := Relay.Frames(c);
    if frames != [] {
      PrintOne(enc, frames[0]);
      assert frames == [frames[0]];
    }
  }

  // ---------------------------------------------------------------- round trip

  /** The payload a frame carries is one line. */
  predicate OneLine(enc: Encoder, frame: Relay.Action) {
    match frame
    case DataFrame(c) => LineFree(enc.chunk(c))
    case ErrorFrame(e) => LineFree(enc.error(e))
    case _ => true
  }

  /** The event a frame stands for. */
  function Meaning(enc: Encoder, frame: Relay.Action): seq<Event> {
    match frame
    case DataFrame(c) => [Event("message", enc.chunk(c), "")]
    case ErrorFrame(e) => [Event("error", enc.error(e), "")]
    case DoneFrame => [Event("message", "[DONE]", "")]
    case _ => []
  }

  function Meanings(enc: Encoder, frames: seq<Relay.Action>): seq<Event> {
    if frames == [] then [] else Meaning(enc, frames[0]) + Meanings(enc, frames[1..])
  }

  lemma {:induction false} BreakAfter(line: string, rest: string)
    requires LineFree(line)
    ensures FirstBreak(line + "\n" + rest) == |line|
  {
    var s := line + "\n" + rest;
    if line != "" {
      assert s[1..] == line[1..] + "\n" + rest && s[0] == line[0];
      BreakAfter(line[1..], rest);
    }
  }

  lemma {:induction false} ColonAfter(name: string, rest: string)
    requires ':' !in name
    ensures IndexOf(name + ":" + rest, ':') == |name|
  {
    var s := name + ":" + rest;
    if name != "" {
      assert s[1..] == name[1..] + ":" + rest && s[0] == name[0];
      ColonAfter(name[1..], rest);
    }
  }

  /** Reading one line that ends in LF. */
  lemma ReadOneLine(line: string, rest: string, b: Buffers)
    requires LineFree(line)
    ensures ReadLines(line + "\n" + rest, b) == Line(line, b).1 + ReadLines(rest, Line(line, b).0)
  {
    BreakAfter(line, rest);
    var s := line + "\n" + rest;
    assert s[..|line|] == line && s[|line| + 1..] == rest;
  }

  /** A line may end in LF, in CR LF, or in CR alone. */
  lemma LineEnds(line: string, rest: string, b: Buffers)
    requires forall i :: 0 <= i < |line| ==> line[i] != '\r' && line[i] != '\n'
    ensures ReadLines(line + "\r\n" + rest, b) == ReadLines(line + "\n" + rest, b)
    ensures rest != "" && rest[0] != '\n' ==> ReadLines(line + "\r" + rest, b) == ReadLines(line + "\n" + rest, b)
  {
    var lf, cr, crlf := line + "\n" + rest, line + "\r" + rest, line + "\r\n" + rest;
    FirstBreakAt(lf, |line|);
    FirstBreakAt(cr, |line|);
    FirstBreakAt(crlf, |line|);
    assert lf[..|line|] == line && cr[..|line|] == line && crlf[..|line|] == line;
    assert lf[|line| + 1..] == rest && cr[|line| + 1..] == rest && crlf[|line| + 2..] == rest;
  }

  lemma FirstBreakAt(s: string, k: nat)
    requires k < |s| && LineFree(s[..k]) && IsBreak(s[k])
    ensures FirstBreak(s) == k
  {
    var f := FirstBreak(s);
    assert f <= |s| && LineFree(s[..f]);
  }

  /** What a complete line does to the buffers: an empty one dispatches the data, if there is any,
      without its last LF; a comment is ignored, and so is a field of any other name. */
  lemma LineMeans(b: Buffers, data: string, line: string)
    ensures Line("", b.(data := "")) == (Buffers("", "", b.id), [])
    ensures Line("", b.(data := data + "\n"))
         == (Buffers("", "", b.id), [Event(if b.kind == "" then "message" else b.kind, data, b.id)])
    ensures line != "" && line[0] == ':' ==> Line(line, b) == (b, [])
    ensures Field("event", line, b) == b.(kind := line)
    ensures Field("data", line, b) == b.(data := b.data + line + "\n")
    ensures Field("id", line, b) == if '\0' in line then b else b.(id := line)
    ensures line != "event" && line != "data" && line != "id" ==> Field(line, data, b) == b
  {
    assert (data + "\n")[..|data|] == data;
  }

  /** A `name: value` line with a colon-free name sets that field, whatever the value holds. */
  lemma FieldLine(name: string, value: string, b: Buffers)
    requires name != "" && ':' !in name
    ensures Line(name + ": " + value, b) == (Field(name, value, b), [])
  {
    var line := name + ": " + value;
    var k := |name|;
    assert line == name + ":" + (" " + value) && line[0] == name[0];
    ColonAfter(name, " " + value);
    assert line[..k] == name && line[k + 1..] == " " + value;
    assert (" " + value)[1..] == value;
  }

  lemma ReadData(payload: string, rest: string, kind: string)
    requires LineFree(payload)
    ensures ReadLines("data: " + payload + "\n\n" + rest, Buffers(kind, "", ""))
         == [Event(if kind == "" then "message" else kind, payload, "")] + ReadLines(rest, FRESH)
  {
    var b := Buffers(kind, "", "");
    var line := "data" + ": " + payload;
    assert LineFree(line);
    assert "data: " + payload + "\n\n" + rest == line + "\n" + ("" + "\n" + rest);
    ReadOneLine(line, "" + "\n" + rest, b);
    FieldLine("data", payload, b);
    var b' := Field("data", payload, b);
    assert b'.data == payload + "\n" && b'.data[..|payload|] == payload;
    ReadOneLine("", rest, b');
  }

  lemma ReadError(payload: string, rest: string)
    requires LineFree(payload)
    ensures ReadLines("event: error\ndata: " + payload + "\n\n" + rest, FRESH)
         == [Event("error", payload, "")] + ReadLines(rest, FRESH)
  {
    var line := "event" + ": " + "error";
    var after := "data: " + payload + "\n\n" + rest;
    assert "event: error\ndata: " + payload + "\n\n" + rest == line + "\n" + after;
    ReadOneLine(line, after, FRESH);
    FieldLine("event", "error", FRESH);
    ReadData(payload, rest, "error");
  }

  lemma ReadFrame(enc: Encoder, frame: Relay.Action, rest: string)
    requires OneLine(enc, frame)
    ensures ReadLines(Print(enc, frame) + rest, FRESH) == Meaning(enc, frame) + ReadLines(rest, FRESH)
  {
    match frame
    case DataFrame(c) => ReadData(enc.chunk(c), rest, "");
    case ErrorFrame(e) => ReadError(enc.error(e), rest);
    case DoneFrame =>
      assert Print(enc, frame) == "data: " + "[DONE]" + "\n\n";
      ReadData("[DONE]", rest, "");
    case _ =>
      assert "" + rest == rest && [] + ReadLines(rest, FRESH) == ReadLines(rest, FRESH);
  }

  lemma {:induction false} ReadFrames(enc: Encoder, frames: seq<Relay.Action>)
    requires forall f :: f in frames ==> OneLine(enc, f)
    ensures ReadLines(PrintAll(enc, frames), FRESH) == Meanings(enc, frames)
  {
    if frames != [] {
      ReadFrame(enc, frames[0], PrintAll(enc, frames[1..]));
      ReadFrames(enc, frames[1..]);
    }
  }

  lemma {:induction false} NoByteOrderMark(enc: Encoder, frames: seq<Relay.Action>)
    ensures var s := PrintAll(enc, frames); s != "" ==> s[0] == 'd' || s[0] == 'e'
  {
    if frames != [] {
      NoByteOrderMark(enc, frames[1..]);
      assert Print(enc, frames[0]) == "" ==> PrintAll(enc, frames) == PrintAll(enc, frames[1..]);
    }
  }

  /** Round trip: as long as encoded payloads are single lines, what a standard reader makes of the
      printed bytes is exactly the frames' events. */
  lemma RoundTrip(enc: Encoder, frames: seq<Relay.Action>)
    requires forall f :: f in frames ==> OneLine(enc, f)
    ensures Read(PrintAll(enc, frames)) == Meanings(enc, frames)
  {
    ReadFrames(enc, frames);
    NoByteOrderMark(enc, frames);
  }

  /** The payload of a chunk that has one; a chunk that only reports usage has none. */
  function Payload(enc: Encoder, c: ResponseChunk): seq<Event> {
    if c.error.Some? then [Event("error", enc.error(c.error.value), "")]
    else if c.chunk.Some? then [Event("message", enc.chunk(c.chunk.value), "")]
    else []
  }

  function Payloads(enc: Encoder, chunks: seq<ResponseChunk>): seq<Event> {
    if chunks == [] then [] else Payload(enc, chunks[0]) + Payloads(enc, chunks[1..])
  }

  /** What the client is meant to read, chunk by chunk. */
  lemma {:induction false} PayloadsMean(enc: Encoder, chunks: seq<ResponseChunk>, c: ResponseChunk)
    ensures Payloads(enc, []) == []
    ensures Payloads(enc, chunks + [c])
         == Payloads(enc, chunks)
            + if c.error.Some? then [Event("error", enc.error(c.error.value), "")]
              else if c.chunk.Some? then [Event("message", enc.chunk(c.chunk.value), "")]
              else []
  {
    if chunks == [] {
      assert chunks + [c] == [c] && [c][1..] == [];
    } else {
      PayloadsMean(enc, chunks[1..], c);
      assert (chunks + [c])[1..] == chunks[1..] + [c];
    }
  }

  lemma {:induction false} MeaningsAppend(enc: Encoder, a: seq<Relay.Action>, b: seq<Relay.Action>)
    ensures Meanings(enc, a + b) == Meanings(enc, a) + Meanings(enc, b)
  {
    if a == [] {
      assert a + b == b;
    } else {
      assert (a + b)[1..] == a[1..] + b;
      MeaningsAppend(enc, a[1..], b);
    }
  }

  lemma OneMeaning(enc: Encoder, frame: Relay.Action)
    ensures Meanings(enc, [frame]) == Meaning(enc, frame)
  {
    assert Meanings(enc, [frame][1..]) == [];
  }

  lemma {:induction false} FramesMean(enc: Encoder, chunks: seq<ResponseChunk>)
    ensures Meanings(enc, RelayEnding.FramesOf(chunks)) == Payloads(enc, chunks)
  {
    if chunks != [] {
      FramesMean(enc, chunks[1..]);
      var frames := Relay.Frames(chunks[0]);
      if frames != [] {
        assert frames == [frames[0]];
        OneMeaning(enc, frames[0]);
      }
      MeaningsAppend(enc, frames, RelayEnding.FramesOf(chunks[1..]));
    }
  }

  /** What a client reads of a relayed stream, in every state in which the writer has stopped: the
      payloads received before the first error, in order, then one `error` event, or `[DONE]`. */
  lemma ClientReads(cfg: Relay.Config, run: seq<Relay.Label>, s: Relay.State, enc: Encoder)
    requires Relay.Reached(cfg, run, s) && s.writer.Stopped?
    requires forall f :: f in s.log ==> OneLine(enc, f)
    ensures ErrorOnlyLast(s.received)
    ensures Read(PrintAll(enc, RelayEnding.Only(RelayEnding.IsFrame, s.log)))
         == Payloads(enc, s.received) + if ErrorFree(s.received) then [Event("message", "[DONE]", "")] else []
  {
    RelayEnding.FramesWritten(cfg, run, s);
    Relay.Invariant(cfg, run, s);
    var frames := RelayEnding.Only(RelayEnding.IsFrame, s.log);
    forall f | f in frames ensures OneLine(enc, f) {
      RelayEnding.OnlyMembers(RelayEnding.IsFrame, s.log, f);
    }
    RoundTrip(enc, frames);
    var tail := if ErrorFree(s.received) then [Relay.DoneFrame] else [];
    FramesMean(enc, s.received);
    MeaningsAppend(enc, RelayEnding.FramesOf(s.received), tail);
    OneMeaning(enc, Relay.DoneFrame);
  }
}
