/** One streamed response as a step model: the `Invoke` forwarder and its canceller
    (internal/plugins/rpc.go), the relay goroutine of `executeStream` (internal/pipeline/pipeline.go)
    and `writeStream` (internal/httpapi/server.go), joined by two unbuffered channels.
    A send and the matching receive are one rendezvous step; every other step belongs to one process. */
module Relay {
  import opened Capabilities

  /** How the plugin's replies to `InvokeNext` end, as long as the request context lives. */
  datatype Ending = Eof | CallFails(message: string)

  datatype Config = Config(replies: seq<ResponseChunk>, ending: Ending, limited: bool, capture: bool)

  datatype Forwarder = Calling | Offering(held: ResponseChunk, last: bool) | SignallingDone | ClosingCh | ForwarderGone

  datatype Goroutine = Receiving | Absorbing(got: ResponseChunk) | Sending(got: ResponseChunk)
                     | Settling | Reporting | ClosingOut | RelayGone

  datatype Writer = Reading | Stopped

  datatype Canceller = Watching | Cancelling | CancellerGone

  /** What the outside world can see, in the order it happens. */
  datatype Action = UpstreamErrorEvent
                  | Commit(usage: Usage)
                  | CompletedEvent(usage: Usage)
                  | FailedEvent
                  | DataFrame(chunk: ChatChunk)
                  | ErrorFrame(error: UpstreamError)
                  | DoneFrame

  /** `received`, `dropped` and `synthetic` are the history of the channel contents; `log` is the history of actions. */
  datatype State = State(
    next: nat, forwarder: Forwarder, relay: Goroutine, writer: Writer, canceller: Canceller,
    ctxDone: bool, streamDone: bool, chClosed: bool, outClosed: bool,
    usage: Usage, failed: bool, text: string,
    received: seq<ResponseChunk>, dropped: seq<ResponseChunk>, synthetic: seq<ResponseChunk>,
    log: seq<Action>)

  datatype Label = Reply | ReplyEof | CallError(message: string) | HandOver | Abandon
                 | SignalDone | CloseCh
                 | Absorb | Deliver | SeeClosed | Settle | Report | CloseOut
                 | WriterEnds
                 | ContextDone
                 | CancelCall | CancelReturns | CancelSkipped

  const INIT := State(0, Calling, Receiving, Reading, Watching, false, false, false, false,
                      NO_USAGE, false, "", [], [], [], [])

  function StreamFailed(message: string): ResponseChunk {
    ResponseChunk(None, None, Some(UpstreamError("plugin_stream_failed", message, 502, true, false)))
  }

  /** The step `l` can happen in `s`. A call that is in flight when the context ends may still
      return its reply, or fail with the context's error: `callOn` takes whichever it sees first. */
  predicate Enabled(cfg: Config, s: State, l: Label) {
    match l
    case Reply => s.forwarder.Calling? && s.next < |cfg.replies|
    case ReplyEof => s.forwarder.Calling? && s.next == |cfg.replies| && cfg.ending.Eof?
    case CallError(m) =>
      s.forwarder.Calling? && (s.ctxDone || (s.next == |cfg.replies| && cfg.ending == CallFails(m)))
    case HandOver => s.forwarder.Offering? && s.relay.Receiving?
    case Abandon => s.forwarder.Offering? && s.ctxDone
    case SignalDone => s.forwarder.SignallingDone?
    case CloseCh => s.forwarder.ClosingCh?
    case Absorb => s.relay.Absorbing?
    case Deliver => s.relay.Sending? && s.writer.Reading?
    case SeeClosed => s.relay.Receiving? && s.chClosed
    case Settle => s.relay.Settling?
    case Report => s.relay.Reporting?
    case CloseOut => s.relay.ClosingOut?
    case WriterEnds => s.writer.Reading? && s.outClosed
    case ContextDone => !s.ctxDone
    case CancelCall => s.canceller.Watching? && s.ctxDone
    case CancelReturns => s.canceller.Cancelling?
    case CancelSkipped => s.canceller.Watching? && s.streamDone
  }

  function Frames(c: ResponseChunk): seq<Action> {
    if c.error.Some? then [ErrorFrame(c.error.value)]
    else if c.chunk.Some? then [DataFrame(c.chunk.value)]
    else []
  }

  /** The actions a step performs. */
  function Emitted(cfg: Config, s: State, l: Label): seq<Action>
    requires Enabled(cfg, s, l)
  {
    match l
    case Absorb => if s.relay.got.error.Some? then [UpstreamErrorEvent] else []
    case Deliver => Frames(s.relay.got)
    case Settle => if cfg.limited && s.usage.total > 0 then [Commit(s.usage)] else []
    case Report => [if s.failed then FailedEvent else CompletedEvent(s.usage)]
    case WriterEnds => [DoneFrame]
    case _ => []
  }

  function Move(cfg: Config, s: State, l: Label): (t: State)
    requires Enabled(cfg, s, l)
    ensures t.log == s.log && t.ctxDone == (s.ctxDone || l.ContextDone?)
  {
    match l
    case Reply => s.(forwarder := Offering(cfg.replies[s.next], false), next := s.next + 1)
    case ReplyEof => s.(forwarder := SignallingDone)
    case CallError(m) => s.(forwarder := Offering(StreamFailed(m), true), synthetic := [StreamFailed(m)])
    case HandOver =>
      s.(forwarder := if s.forwarder.last then SignallingDone else Calling, relay := Absorbing(s.forwarder.held))
    case Abandon => s.(forwarder := SignallingDone, dropped := [s.forwarder.held])
    case SignalDone => s.(forwarder := ClosingCh, streamDone := true)
    case CloseCh => s.(forwarder := ForwarderGone, chClosed := true)
    case Absorb =>
      var c := s.relay.got;
      s.(relay := Sending(c),
         usage := if c.usage.Some? then c.usage.value else s.usage,
         text := if cfg.capture then s.text + ChunkText(c) else s.text,
         failed := s.failed || c.error.Some?)
    case Deliver =>
      var c := s.relay.got;
      s.(relay := Receiving, received := s.received + [c], writer := if c.error.Some? then Stopped else Reading)
    case SeeClosed => s.(relay := Settling)
    case Settle => s.(relay := Reporting)
    case Report => s.(relay := ClosingOut)
    case CloseOut => s.(relay := RelayGone, outClosed := true)
    case WriterEnds => s.(writer := Stopped)
    case ContextDone => s.(ctxDone := true)
    case CancelCall => s.(canceller := Cancelling)
    case CancelReturns => s.(canceller := CancellerGone)
    case CancelSkipped => s.(canceller := CancellerGone)
  }

  function Step(cfg: Config, s: State, l: Label): State
    requires Enabled(cfg, s, l)
  {
    Move(cfg, s, l).(log := s.log + Emitted(cfg, s, l))
  }

  /** `run` is a run of the system from `s`. */
  predicate CanRun(cfg: Config, s: State, run: seq<Label>)
    decreases |run|
  {
    run == [] || (Enabled(cfg, s, run[0]) && CanRun(cfg, Step(cfg, s, run[0]), run[1..]))
  }

  function After(cfg: Config, s: State, run: seq<Label>): State
    requires CanRun(cfg, s, run)
    decreases |run|
  {
    if run == [] then s else After(cfg, Step(cfg, s, run[0]), run[1..])
  }

  predicate Reached(cfg: Config, run: seq<Label>, s: State) {
    CanRun(cfg, INIT, run) && After(cfg, INIT, run) == s
  }

  predicate Final(s: State) {
    && s.forwarder.ForwarderGone? && s.relay.RelayGone? && s.writer.Stopped? && s.canceller.CancellerGone?
    && s.chClosed && s.outClosed
  }

  // ---------------------------------------------------------------- what every step keeps

  /** Chunks the relay has absorbed: those the writer got, then the one being sent. */
  function Absorbed(s: State): seq<ResponseChunk> {
    s.received + if s.relay.Sending? then [s.relay.got] else []
  }

  function RelayHeld(s: State): seq<ResponseChunk> {
    if s.relay.Sending? || s.relay.Absorbing? then [s.relay.got] else []
  }

  function ForwarderHeld(s: State): seq<ResponseChunk> {
    if s.forwarder.Offering? then [s.forwarder.held] else []
  }

  /** Every chunk the forwarder obtained is, in order, with the writer, the relay, the forwarder, or dropped. */
  ghost predicate Conserved(cfg: Config, s: State) {
    && s.next <= |cfg.replies|
    && Placed(s) == cfg.replies[..s.next] + s.synthetic
  }

  predicate Leaving(f: Forwarder) {
    f.SignallingDone? || f.ClosingCh? || f.ForwarderGone?
  }

  predicate Draining(r: Goroutine) {
    r.Settling? || r.Reporting? || r.ClosingOut? || r.RelayGone?
  }

  /** The control state: who is where, and which flags that implies. */
  ghost predicate Control(cfg: Config, s: State) {
    && (s.streamDone <==> s.forwarder.ClosingCh? || s.forwarder.ForwarderGone?)
    && (s.chClosed <==> s.forwarder.ForwarderGone?)
    && (s.outClosed <==> s.relay.RelayGone?)
    && (Draining(s.relay) ==> s.chClosed)
    && (s.dropped != [] ==> s.ctxDone && |s.dropped| == 1 && Leaving(s.forwarder))
    && (s.synthetic == [] ==> s.forwarder.Offering? ==> !s.forwarder.last)
    && (s.synthetic != [] ==>
          && |s.synthetic| == 1 && s.synthetic[0].error.Some?
          && (s.forwarder.Offering? || Leaving(s.forwarder))
          && (s.forwarder.Offering? ==> s.forwarder.last && s.forwarder.held == s.synthetic[0]))
    && (!s.ctxDone && Leaving(s.forwarder) ==>
          && s.next == |cfg.replies| && (cfg.ending.Eof? <==> s.synthetic == []))
    && (!s.ctxDone && s.synthetic != [] ==>
          && s.next == |cfg.replies| && cfg.ending.CallFails? && s.synthetic == [StreamFailed(cfg.ending.message)])
    && (Leaving(s.forwarder) && s.dropped == [] && s.synthetic == [] ==> s.next == |cfg.replies| && cfg.ending.Eof?)
    && (s.canceller.Cancelling? ==> s.ctxDone)
    && (s.canceller.CancellerGone? ==> s.ctxDone || s.streamDone)
  }

  /** The writer stops reading at the first error chunk it gets, or once `out` is closed. */
  ghost predicate WriterState(s: State) {
    && ErrorOnlyLast(s.received)
    && (s.writer.Reading? ==> ErrorFree(s.received))
    && (s.writer.Stopped? && ErrorFree(s.received) ==> s.relay.RelayGone?)
  }

  /** The relay's accumulators are functions of what it absorbed. */
  ghost predicate Accumulated(cfg: Config, s: State) {
    && s.usage == LastUsage(NO_USAGE, Absorbed(s))
    && s.text == (if cfg.capture then TextOf(Absorbed(s)) else "")
    && (s.failed <==> !ErrorFree(Absorbed(s)))
  }

  ghost predicate Inv(cfg: Config, s: State) {
    Conserved(cfg, s) && Control(cfg, s) && WriterState(s) && Accumulated(cfg, s)
  }

  /** The chunks obtained so far, by where they are now. */
  function Placed(s: State): seq<ResponseChunk> {
    s.received + RelayHeld(s) + ForwarderHeld(s) + s.dropped
  }

  lemma PlacedStep(cfg: Config, s: State, l: Label)
    requires Control(cfg, s) && Enabled(cfg, s, l)
    ensures Placed(Step(cfg, s, l))
         == Placed(s) + match l
                        case Reply => [cfg.replies[s.next]]
                        case CallError(m) => [StreamFailed(m)]
                        case _ => []
  {
    if l.HandOver? || l.Deliver? || l.Abandon? {
      PlacedHandOn(cfg, s, l);
    } else if !l.Reply? && !l.CallError? {
      PlacedKept(cfg, s, l);
    }
  }

  lemma PlacedKept(cfg: Config, s: State, l: Label)
    requires Enabled(cfg, s, l)
    requires !l.HandOver? && !l.Deliver? && !l.Abandon? && !l.Reply? && !l.CallError?
    ensures Placed(Step(cfg, s, l)) == Placed(s)
  {
    var t := Step(cfg, s, l);
    assert t.received == s.received && t.dropped == s.dropped;
    assert RelayHeld(t) == RelayHeld(s) && ForwarderHeld(t) == ForwarderHeld(s);
  }

  /** A chunk that is handed on, or dropped, keeps its place in the order. */
  lemma PlacedHandOn(cfg: Config, s: State, l: Label)
    requires Control(cfg, s) && Enabled(cfg, s, l) && (l.HandOver? || l.Deliver? || l.Abandon?)
    ensures Placed(Step(cfg, s, l)) == Placed(s)
  {
    var t := Step(cfg, s, l);
    if l.HandOver? {
      assert RelayHeld(s) == [] && RelayHeld(t) == ForwarderHeld(s) && ForwarderHeld(t) == [];
    } else if l.Deliver? {
      assert t.received == s.received + RelayHeld(s) && RelayHeld(t) == [];
    } else {
      assert t.dropped == ForwarderHeld(s) && ForwarderHeld(t) == [] && s.dropped == [];
    }
  }

  lemma ConservedStep(cfg: Config, s: State, l: Label)
    requires Conserved(cfg, s) && Control(cfg, s) && Enabled(cfg, s, l)
    ensures Conserved(cfg, Step(cfg, s, l))
  {
    PlacedStep(cfg, s, l);
    if l.Reply? {
      assert cfg.replies[..s.next + 1] == cfg.replies[..s.next] + [cfg.replies[s.next]];
      assert s.synthetic == [];
    } else if l.CallError? {
      assert s.synthetic == [];
    }
  }

  predicate ByForwarder(l: Label) {
    l.Reply? || l.ReplyEof? || l.CallError? || l.HandOver? || l.Abandon? || l.SignalDone? || l.CloseCh?
  }

  lemma ControlForwarder(cfg: Config, s: State, l: Label)
    requires Conserved(cfg, s) && Control(cfg, s) && Enabled(cfg, s, l) && ByForwarder(l)
    ensures Control(cfg, Step(cfg, s, l))
  {
    var t := Step(cfg, s, l);
    assert t.canceller == s.canceller && t.ctxDone == s.ctxDone && t.outClosed == s.outClosed;
  }

  lemma ControlOthers(cfg: Config, s: State, l: Label)
    requires Control(cfg, s) && Enabled(cfg, s, l) && !ByForwarder(l)
    ensures Control(cfg, Step(cfg, s, l))
  {
    var t := Step(cfg, s, l);
    assert t.forwarder == s.forwarder && t.next == s.next && t.synthetic == s.synthetic && t.dropped == s.dropped;
  }

  lemma ControlStep(cfg: Config, s: State, l: Label)
    requires Conserved(cfg, s) && Control(cfg, s) && Enabled(cfg, s, l)
    ensures Control(cfg, Step(cfg, s, l))
  {
    if ByForwarder(l) {
      ControlForwarder(cfg, s, l);
    } else {
      ControlOthers(cfg, s, l);
    }
  }

  lemma WriterStep(cfg: Config, s: State, l: Label)
    requires Control(cfg, s) && WriterState(s) && Enabled(cfg, s, l)
    ensures WriterState(Step(cfg, s, l))
  {
    if l.Deliver? {
      assert Step(cfg, s, l).received[|s.received|] == s.relay.got;
    }
  }

  lemma AccumulatedAbsorb(cfg: Config, s: State)
    requires Accumulated(cfg, s) && Enabled(cfg, s, Absorb)
    ensures Accumulated(cfg, Step(cfg, s, Absorb))
  {
    assert Absorbed(s) == s.received && Absorbed(Step(cfg, s, Absorb)) == s.received + [s.relay.got];
    TextOfSnoc(s.received, s.relay.got);
    LastUsageSnoc(NO_USAGE, s.received, s.relay.got);
    ErrorFreeSnoc(s.received, s.relay.got);
  }

  lemma AbsorbedDeliver(cfg: Config, s: State)
    requires Enabled(cfg, s, Deliver)
    ensures Absorbed(Step(cfg, s, Deliver)) == Absorbed(s)
  {
    assert s.received + [s.relay.got] + [] == s.received + [s.relay.got];
  }

  predicate SameAccount(s: State, t: State) {
    Absorbed(t) == Absorbed(s) && t.usage == s.usage && t.text == s.text && t.failed == s.failed
  }

  lemma AbsorbedForwarder(cfg: Config, s: State, l: Label)
    requires Enabled(cfg, s, l) && ByForwarder(l)
    ensures SameAccount(s, Step(cfg, s, l))
  {
    var t := Step(cfg, s, l);
    assert t.received == s.received && (t.relay == s.relay || (s.relay.Receiving? && t.relay.Absorbing?));
  }

  lemma AbsorbedOthers(cfg: Config, s: State, l: Label)
    requires Enabled(cfg, s, l) && !ByForwarder(l) && !l.Absorb? && !l.Deliver?
    ensures SameAccount(s, Step(cfg, s, l))
  {
    var t := Step(cfg, s, l);
    assert t.received == s.received && (t.relay == s.relay || (!s.relay.Sending? && !t.relay.Sending?));
  }

  lemma AbsorbedKept(cfg: Config, s: State, l: Label)
    requires Enabled(cfg, s, l) && !l.Absorb?
    ensures SameAccount(s, Step(cfg, s, l))
  {
    if l.Deliver? {
      AbsorbedDeliver(cfg, s);
    } else if ByForwarder(l) {
      AbsorbedForwarder(cfg, s, l);
    } else {
      AbsorbedOthers(cfg, s, l);
    }
  }

  lemma AccumulatedStep(cfg: Config, s: State, l: Label)
    requires Accumulated(cfg, s) && Enabled(cfg, s, l)
    ensures Accumulated(cfg, Step(cfg, s, l))
  {
    if l.Absorb? {
      AccumulatedAbsorb(cfg, s);
    } else {
      AbsorbedKept(cfg, s, l);
    }
  }

  lemma InvStep(cfg: Config, s: State, l: Label)
    requires Inv(cfg, s) && Enabled(cfg, s, l)
    ensures Inv(cfg, Step(cfg, s, l))
  {
    ConservedStep(cfg, s, l);
    ControlStep(cfg, s, l);
    WriterStep(cfg, s, l);
    AccumulatedStep(cfg, s, l);
  }

  lemma {:induction false} InvAlong(cfg: Config, s: State, run: seq<Label>)
    requires Inv(cfg, s) && CanRun(cfg, s, run)
    ensures Inv(cfg, After(cfg, s, run))
    decreases |run|
  {
    if run != [] {
      InvStep(cfg, s, run[0]);
      InvAlong(cfg, Step(cfg, s, run[0]), run[1..]);
    }
  }

  lemma {:induction false} RunAppend(cfg: Config, s: State, a: seq<Label>, b: seq<Label>)
    requires CanRun(cfg, s, a)
    ensures CanRun(cfg, s, a + b) <==> CanRun(cfg, After(cfg, s, a), b)
    ensures CanRun(cfg, s, a + b) ==> After(cfg, s, a + b) == After(cfg, After(cfg, s, a), b)
    decreases |a|
  {
    if a == [] {
      assert a + b == b;
    } else {
      assert (a + b)[1..] == a[1..] + b;
      RunAppend(cfg, Step(cfg, s, a[0]), a[1..], b);
    }
  }

  /** One more step of a reached state. */
  lemma Then(cfg: Config, run: seq<Label>, s: State, l: Label) returns (run': seq<Label>, t: State)
    requires Reached(cfg, run, s) && Enabled(cfg, s, l)
    ensures run' == run + [l] && t == Step(cfg, s, l) && Reached(cfg, run', t)
  {
    run', t := run + [l], Step(cfg, s, l);
    RunAppend(cfg, INIT, run, [l]);
    assert CanRun(cfg, t, [l][1..]);
  }

  lemma Invariant(cfg: Config, run: seq<Label>, s: State)
    requires Reached(cfg, run, s)
    ensures Inv(cfg, s)
  {
    InvAlong(cfg, INIT, run);
  }

  /** Chunk conservation in every reachable state: what the writer received, then the at most one
      chunk the relay holds, then the at most one the forwarder holds or has dropped, are in order
      the replies obtained so far plus at most one synthesised `plugin_stream_failed` chunk.
      Only the forwarder ever drops, only once the context has ended, and then it closes its channel. */
  lemma ChunkConservation(cfg: Config, run: seq<Label>, s: State)
    requires Reached(cfg, run, s)
    ensures s.next <= |cfg.replies|
    ensures s.received + RelayHeld(s) + ForwarderHeld(s) + s.dropped == cfg.replies[..s.next] + s.synthetic
    ensures |s.synthetic| <= 1 && |s.dropped| <= 1 && |RelayHeld(s)| <= 1 && |ForwarderHeld(s)| <= 1
    ensures s.dropped != [] ==> s.ctxDone && Leaving(s.forwarder)
    ensures s.synthetic != [] && !s.ctxDone ==> s.next == |cfg.replies| && cfg.ending.CallFails?
  {
    Invariant(cfg, run, s);
  }

  /** The relay's usage and captured text are those of the chunks it absorbed; if the context has not
      ended, a finished relay has absorbed the whole stream the plugin sent. */
  lemma RelayAccumulates(cfg: Config, run: seq<Label>, s: State)
    requires Reached(cfg, run, s)
    ensures s.usage == LastUsage(NO_USAGE, Absorbed(s))
    ensures cfg.capture ==> s.text == TextOf(Absorbed(s))
    ensures s.failed <==> !ErrorFree(Absorbed(s))
    ensures s.relay.RelayGone? && !s.ctxDone ==> Absorbed(s) == Stream(cfg)
  {
    Invariant(cfg, run, s);
    if s.relay.RelayGone? && !s.ctxDone {
      assert s.received == s.received + RelayHeld(s) + ForwarderHeld(s) + s.dropped;
      assert cfg.replies[..s.next] == cfg.replies;
    }
  }

  /** The chunk by which the forwarder reports a call that failed: no content and no usage, and an
      error that counts as retryable. */
  predicate ReportsFailure(c: ResponseChunk) {
    && c.chunk.None? && c.usage.None? && c.error.Some?
    && c.error.value.code == "plugin_stream_failed" && c.error.value.httpStatus == 502
    && c.error.value.retryable && !c.error.value.rateLimited
  }

  predicate SyntheticReports(s: State) {
    s.synthetic == [] || (|s.synthetic| == 1 && ReportsFailure(s.synthetic[0]))
  }

  lemma SyntheticKept(cfg: Config, s: State, l: Label)
    requires SyntheticReports(s) && Enabled(cfg, s, l)
    ensures SyntheticReports(Step(cfg, s, l))
  {
    assert !l.CallError? ==> Step(cfg, s, l).synthetic == s.synthetic;
  }

  lemma {:induction false} SyntheticAlong(cfg: Config, s: State, run: seq<Label>)
    requires CanRun(cfg, s, run) && SyntheticReports(s)
    ensures SyntheticReports(After(cfg, s, run))
    decreases |run|
  {
    if run != [] {
      SyntheticKept(cfg, s, run[0]);
      SyntheticAlong(cfg, Step(cfg, s, run[0]), run[1..]);
    }
  }

  /** What the forwarder synthesises when a call fails, field by field; while the context lives it
      carries the text of the call's error. */
  lemma SyntheticMeans(cfg: Config, run: seq<Label>, s: State)
    requires Reached(cfg, run, s) && s.synthetic != []
    ensures |s.synthetic| == 1
    ensures var c := s.synthetic[0];
            && c.chunk == None && c.usage == None && c.error.Some?
            && c.error == Some(UpstreamError("plugin_stream_failed", c.error.value.message, 502, true, false))
            && (!s.ctxDone ==> cfg.ending.CallFails? && c.error.value.message == cfg.ending.message)
  {
    SyntheticAlong(cfg, INIT, run);
    Invariant(cfg, run, s);
  }

  /** And what it offers the relay as long as the context lives. */
  lemma StreamMeans(cfg: Config)
    ensures cfg.ending.Eof? ==> Stream(cfg) == cfg.replies
    ensures cfg.ending.CallFails? ==>
              Stream(cfg)
              == cfg.replies + [ResponseChunk(None, None, Some(UpstreamError("plugin_stream_failed", cfg.ending.message,
                                                                             502, true, false)))]
  {
  }

  /** What the forwarder offers the relay, as long as the context lives. */
  function Stream(cfg: Config): seq<ResponseChunk> {
    cfg.replies + match cfg.ending case Eof => [] case CallFails(m) => [StreamFailed(m)]
  }
}
