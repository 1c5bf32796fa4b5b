/** The bodies of the goroutines as the plain loops they are, each run by itself on the chunks its
    channel delivers, and the proof that the interleaved system of `Relay` comes to the same. */
module RelayLoops {
  import opened Capabilities
  import opened Relay
  import opened RelayEnding
  import opened RelayProgress
  import opened Sequences
  import Collect

  // ---------------------------------------------------------------- the forwarder

  /** What a call of `InvokeNext` comes back with. */
  datatype Answer = Next(chunk: ResponseChunk) | AtEnd | Broken(message: string)

  /** What the environment decides for a forwarder: the answers, and for each `select` whether the
      send goes through or the end of the context is seen. */
  datatype Script = Script(answers: seq<Answer>, taken: seq<bool>)

  /** The chunk an answer gives the forwarder to send. */
  function Offer(a: Answer): seq<ResponseChunk> {
    match a
    case Next(c) => [c]
    case AtEnd => []
    case Broken(m) => [StreamFailed(m)]
  }

  function Offers(answers: seq<Answer>): seq<ResponseChunk> {
    if answers == [] then [] else Offers(answers[..|answers| - 1]) + Offer(answers[|answers| - 1])
  }

  lemma OffersSnoc(answers: seq<Answer>, a: Answer)
    ensures Offers(answers + [a]) == Offers(answers) + Offer(a)
  {
    assert (answers + [a])[..|answers|] == answers;
  }

  /** The loop goes through the first `n` answers, and every send among them. */
  predicate Passes(f: Script, n: nat) {
    && n <= |f.answers| && n <= |f.taken|
    && forall i :: 0 <= i < n ==> f.answers[i].Next? && f.taken[i]
  }

  /** Decisions with which the loop ends: at the end of the stream, at a failed call, or at the first
      send that gives way to the end of the context. */
  predicate Ends(f: Script) {
    var n := |f.answers| - 1;
    && n >= 0 && Passes(f, n)
    && match f.answers[n]
       case Next(_) => |f.taken| == n + 1 && !f.taken[n]
       case AtEnd => |f.taken| == n
       case Broken(_) => |f.taken| == n + 1
  }

  /** The last decision is against the send. */
  predicate GivesUp(f: Script) { f.taken != [] && !f.taken[|f.taken| - 1] }

  /** One turn of the loop. */
  lemma Turn(f: Script, i: nat)
    requires Ends(f) && i < |f.answers|
    ensures Offers(f.answers[..i + 1]) == Offers(f.answers[..i]) + Offer(f.answers[i])
    ensures i < |f.taken| || f.answers[i].AtEnd?
    ensures f.answers[i].Next? && f.taken[i] ==> i + 1 < |f.answers|
    ensures !f.answers[i].Next? || !f.taken[i] ==> f.answers[..i + 1] == f.answers
    ensures f.answers[i].AtEnd? ==> !GivesUp(f)
    ensures !f.answers[i].AtEnd? && (f.answers[i].Broken? || !f.taken[i]) ==> (GivesUp(f) <==> !f.taken[i])
  {
    assert f.answers[..i + 1] == f.answers[..i] + [f.answers[i]];
    OffersSnoc(f.answers[..i], f.answers[i]);
  }

  /** The forwarder of `Invoke`, its deferred closes included: it sends what it is offered, except for
      a last chunk that gives way to the end of the context. */
  method Forward(f: Script) returns (sent: seq<ResponseChunk>, dropped: seq<ResponseChunk>, closes: seq<Label>)
    requires Ends(f)
    ensures sent + dropped == Offers(f.answers) && |dropped| == (if GivesUp(f) then 1 else 0)
    ensures closes == [SignalDone, CloseCh]
  {
    sent, dropped := [], [];
    var i := 0;
    while true
      invariant i < |f.answers| && sent == Offers(f.answers[..i]) && dropped == []
      decreases |f.answers| - i
    {
      Turn(f, i);
      if f.answers[i].AtEnd? {
        break;
      }
      var chunk := if f.answers[i].Broken? then StreamFailed(f.answers[i].message) else f.answers[i].chunk;
      if f.taken[i] {
        sent := sent + [chunk];
      } else {
        dropped := [chunk];
      }
      if f.answers[i].Broken? || !f.taken[i] {
        break;
      }
      i := i + 1;
    }
    closes := [SignalDone];
    closes := closes + [CloseCh];
  }

  /** What a step of the interleaved system decides for the forwarder. */
  function Record(cfg: Config, s: State, l: Label, f: Script): Script
    requires Enabled(cfg, s, l)
  {
    match l
    case Reply => f.(answers := f.answers + [Next(cfg.replies[s.next])])
    case ReplyEof => f.(answers := f.answers + [AtEnd])
    case CallError(m) => f.(answers := f.answers + [Broken(m)])
    case HandOver => f.(taken := f.taken + [true])
    case Abandon => f.(taken := f.taken + [false])
    case _ => f
  }

  /** What a run decides for the forwarder. */
  function Decided(cfg: Config, s: State, run: seq<Label>, f: Script): Script
    requires CanRun(cfg, s, run)
    decreases |run|
  {
    if run == [] then f else Decided(cfg, Step(cfg, s, run[0]), run[1..], Record(cfg, s, run[0], f))
  }

  /** The forwarder of `s` is where its loop is after the decisions `f`. */
  predicate InStep(s: State, f: Script) {
    && Offers(f.answers) == Placed(s)
    && (s.dropped != [] <==> GivesUp(f))
    && match s.forwarder
       case Calling => |f.taken| == |f.answers| && Passes(f, |f.answers|)
       case Offering(_, last) =>
         && f.answers != [] && |f.taken| == |f.answers| - 1 && Passes(f, |f.taken|)
         && !f.answers[|f.taken|].AtEnd? && (f.answers[|f.taken|].Broken? <==> last)
       case _ => Ends(f)
  }

  lemma InStepHandOver(cfg: Config, s: State, f: Script)
    requires Control(cfg, s) && InStep(s, f) && Enabled(cfg, s, HandOver)
    ensures InStep(Step(cfg, s, HandOver), Record(cfg, s, HandOver, f))
  {
    PlacedHandOn(cfg, s, HandOver);
    assert s.dropped == [];
  }

  lemma InStepAbandon(cfg: Config, s: State, f: Script)
    requires Control(cfg, s) && InStep(s, f) && Enabled(cfg, s, Abandon)
    ensures InStep(Step(cfg, s, Abandon), Record(cfg, s, Abandon, f))
  {
    PlacedHandOn(cfg, s, Abandon);
  }

  lemma InStepCalls(cfg: Config, s: State, l: Label, f: Script)
    requires Control(cfg, s) && InStep(s, f) && Enabled(cfg, s, l) && (l.Reply? || l.ReplyEof? || l.CallError?)
    ensures InStep(Step(cfg, s, l), Record(cfg, s, l, f))
  {
    PlacedStep(cfg, s, l);
    var g := Record(cfg, s, l, f);
    OffersSnoc(f.answers, g.answers[|f.answers|]);
    assert s.dropped == [] && g.taken == f.taken;
  }

  lemma InStepKept(cfg: Config, s: State, l: Label, f: Script)
    requires Control(cfg, s) && InStep(s, f) && Enabled(cfg, s, l)
    ensures InStep(Step(cfg, s, l), Record(cfg, s, l, f))
  {
    if l.HandOver? {
      InStepHandOver(cfg, s, f);
    } else if l.Abandon? {
      InStepAbandon(cfg, s, f);
    } else if l.Reply? || l.ReplyEof? || l.CallError? {
      InStepCalls(cfg, s, l, f);
    } else {
      PlacedStep(cfg, s, l);
      assert Step(cfg, s, l).dropped == s.dropped;
    }
  }

  lemma {:induction false} InStepAlong(cfg: Config, s: State, run: seq<Label>, f: Script)
    requires Inv(cfg, s) && InStep(s, f) && CanRun(cfg, s, run)
    ensures InStep(After(cfg, s, run), Decided(cfg, s, run, f))
    decreases |run|
  {
    if run != [] {
      InStepKept(cfg, s, run[0], f);
      InvStep(cfg, s, run[0]);
      InStepAlong(cfg, Step(cfg, s, run[0]), run[1..], Record(cfg, s, run[0], f));
    }
  }

  lemma InStepReached(cfg: Config, run: seq<Label>, s: State)
    requires Reached(cfg, run, s)
    ensures InStep(s, Decided(cfg, INIT, run, Script([], []))) && Control(cfg, s)
  {
    InStepAlong(cfg, INIT, run, Script([], []));
    Invariant(cfg, run, s);
  }

  /** Whatever the interleaving, and whenever the context ends: a forwarder that has gone has handed
      over and dropped exactly what its loop sends and drops when the run decides for it. */
  lemma ForwarderRefinesLoop(cfg: Config, run: seq<Label>, s: State)
    requires Reached(cfg, run, s) && s.forwarder.ForwarderGone?
    ensures var f := Decided(cfg, INIT, run, Script([], []));
            && Ends(f) && s.received + RelayHeld(s) + s.dropped == Offers(f.answers)
            && |s.dropped| == if GivesUp(f) then 1 else 0
  {
    InStepReached(cfg, run, s);
    PlacedWithoutForwarder(s);
  }

  lemma PlacedWithoutForwarder(s: State)
    requires s.forwarder.ForwarderGone?
    ensures Placed(s) == s.received + RelayHeld(s) + s.dropped
  {
    assert ForwarderHeld(s) == [];
  }

  // ---------------------------------------------------------------- the relay

  predicate IsReport(a: Action) { !IsFrame(a) }

  /** What a relay reports about the chunks it has read: an event for each error chunk, then the
      usage, then how the stream ended. */
  function Account(limited: bool, chunks: seq<ResponseChunk>): seq<Action> {
    var usage := LastUsage(NO_USAGE, chunks);
    ErrorEvents(chunks)
    + (if limited && usage.total > 0 then [Commit(usage)] else [])
    + [if ErrorFree(chunks) then CompletedEvent(usage) else FailedEvent]
  }

  function ErrorEvents(chunks: seq<ResponseChunk>): seq<Action> {
    if chunks == [] then [] else ErrorEvent(chunks[0]) + ErrorEvents(chunks[1..])
  }

  function ErrorEvent(c: ResponseChunk): seq<Action> {
    if c.error.Some? then [UpstreamErrorEvent] else []
  }

  lemma {:induction false} ErrorEventsSnoc(a: seq<ResponseChunk>, c: ResponseChunk)
    ensures ErrorEvents(a + [c]) == ErrorEvents(a) + ErrorEvent(c)
  {
    if a == [] {
      assert a + [c] == [c];
    } else {
      assert (a + [c])[1..] == a[1..] + [c];
      ErrorEventsSnoc(a[1..], c);
      Associative(ErrorEvent(a[0]), ErrorEvents(a[1..]), ErrorEvent(c));
    }
  }

  /** The account, piece by piece: one event for each error chunk, in order, then the commit of a
      positive total if there is a limiter, then the one event that says how the stream ended. */
  lemma AccountMeans(limited: bool, chunks: seq<ResponseChunk>, c: ResponseChunk)
    ensures ErrorEvents([]) == []
    ensures ErrorEvents(chunks + [c]) == ErrorEvents(chunks) + if c.error.Some? then [UpstreamErrorEvent] else []
    ensures var usage := LastUsage(NO_USAGE, chunks);
            Account(limited, chunks)
            == ErrorEvents(chunks) + (if limited && usage.total > 0 then [Commit(usage)] else [])
               + if forall i :: 0 <= i < |chunks| ==> chunks[i].error.None? then [CompletedEvent(usage)]
                 else [FailedEvent]
  {
    ErrorEventsSnoc(chunks, c);
  }

  lemma OneMoreRelayed(chunks: seq<ResponseChunk>, i: nat)
    requires i < |chunks|
    ensures chunks[..i + 1] == chunks[..i] + [chunks[i]]
    ensures TextOf(chunks[..i + 1]) == TextOf(chunks[..i]) + ChunkText(chunks[i])
    ensures LastUsage(NO_USAGE, chunks[..i + 1])
         == if chunks[i].usage.Some? then chunks[i].usage.value else LastUsage(NO_USAGE, chunks[..i])
    ensures ErrorFree(chunks[..i + 1]) <==> ErrorFree(chunks[..i]) && chunks[i].error.None?
    ensures ErrorEvents(chunks[..i + 1]) == ErrorEvents(chunks[..i]) + ErrorEvent(chunks[i])
  {
    assert chunks[..i + 1] == chunks[..i] + [chunks[i]];
    TextOfSnoc(chunks[..i], chunks[i]);
    LastUsageSnoc(NO_USAGE, chunks[..i], chunks[i]);
    ErrorFreeSnoc(chunks[..i], chunks[i]);
    ErrorEventsSnoc(chunks[..i], chunks[i]);
  }

  /** The relay goroutine of `executeStream`, on the chunks of its channel. */
  method RelayChunks(chunks: seq<ResponseChunk>, limited: bool, capture: bool)
    returns (sent: seq<ResponseChunk>, text: string, log: seq<Action>)
    ensures sent == chunks && log == Account(limited, chunks)
    ensures text == if capture then TextOf(chunks) else ""
  {
    var usage, failed := NO_USAGE, false;
    sent, text, log := [], "", [];
    for i := 0 to |chunks|
      invariant sent == chunks[..i] && log == ErrorEvents(chunks[..i])
      invariant usage == LastUsage(NO_USAGE, chunks[..i]) && (failed <==> !ErrorFree(chunks[..i]))
      invariant text == if capture then TextOf(chunks[..i]) else ""
    {
      var c := chunks[i];
      OneMoreRelayed(chunks, i);
      if c.usage.Some? {
        usage := c.usage.value;
      }
      assert text + "" == text && log + [] == log;
      if c.chunk.Some? && capture {
        text := Collect.AppendChoices(text, c.chunk.value.choices);
      }
      if c.error.Some? {
        failed := true;
        log := log + [UpstreamErrorEvent];
      }
      sent := sent + [c];
    }
    assert chunks[..|chunks|] == chunks;
    if limited && usage.total > 0 {
      log := log + [Commit(usage)];
    }
    log := log + [if failed then FailedEvent else CompletedEvent(usage)];
  }

  // ---------------------------------------------------------------- the interleaved system agrees

  /** What the relay has reported after its loop. */
  function Closing(cfg: Config, s: State): seq<Action> {
    UsageCommits(cfg, s) + TerminalEvents(s)
  }

  /** What the relay has reported so far. */
  function Reported(cfg: Config, s: State): seq<Action> {
    ErrorEvents(Absorbed(s)) + Closing(cfg, s)
  }

  lemma FramesAreNotReports(c: ResponseChunk)
    ensures Only(IsReport, Frames(c)) == []
  {
    if Frames(c) != [] {
      assert Frames(c)[1..] == [];
    }
  }

  lemma AbsorbEmits(cfg: Config, s: State)
    requires Enabled(cfg, s, Absorb)
    ensures Only(IsReport, Emitted(cfg, s, Absorb)) == ErrorEvent(s.relay.got)
  {
    assert [UpstreamErrorEvent][1..] == [];
  }

  lemma AbsorbReported(cfg: Config, s: State)
    requires Enabled(cfg, s, Absorb)
    ensures ErrorEvents(Absorbed(Step(cfg, s, Absorb))) == ErrorEvents(Absorbed(s)) + ErrorEvent(s.relay.got)
    ensures Closing(cfg, s) == [] && Closing(cfg, Step(cfg, s, Absorb)) == []
  {
    ErrorEventsSnoc(s.received, s.relay.got);
    assert Absorbed(s) == s.received;
  }

  lemma QuietStep(cfg: Config, s: State, l: Label)
    requires Enabled(cfg, s, l) && !l.Absorb? && !l.Settle? && !l.Report?
    ensures Closing(cfg, Step(cfg, s, l)) == Closing(cfg, s)
    ensures Only(IsReport, Emitted(cfg, s, l)) == []
  {
    if l.Deliver? {
      FramesAreNotReports(s.relay.got);
    } else if l.WriterEnds? {
      assert [DoneFrame][1..] == [];
    }
  }

  lemma ClosingStep(cfg: Config, s: State, l: Label)
    requires Enabled(cfg, s, l) && !l.Absorb?
    ensures Closing(cfg, Step(cfg, s, l)) == Closing(cfg, s) + Only(IsReport, Emitted(cfg, s, l))
  {
    if l.Settle? || l.Report? {
      assert forall a: Action :: [a][1..] == [];
    } else {
      QuietStep(cfg, s, l);
    }
  }

  lemma ReportedStep(cfg: Config, s: State, l: Label)
    requires Enabled(cfg, s, l)
    ensures Reported(cfg, Step(cfg, s, l)) == Reported(cfg, s) + Only(IsReport, Emitted(cfg, s, l))
  {
    var t, more := Step(cfg, s, l), Only(IsReport, Emitted(cfg, s, l));
    if l.Absorb? {
      AbsorbReported(cfg, s);
      AbsorbEmits(cfg, s);
    } else {
      AbsorbedKept(cfg, s, l);
      ClosingStep(cfg, s, l);
      Associative(ErrorEvents(Absorbed(s)), Closing(cfg, s), more);
    }
  }

  lemma {:induction false} ReportedAlong(cfg: Config, s: State, run: seq<Label>)
    requires CanRun(cfg, s, run) && Only(IsReport, s.log) == Reported(cfg, s)
    ensures var t := After(cfg, s, run); Only(IsReport, t.log) == Reported(cfg, t)
    decreases |run|
  {
    if run != [] {
      OnlyAppend(IsReport, s.log, Emitted(cfg, s, run[0]));
      ReportedStep(cfg, s, run[0]);
      ReportedAlong(cfg, Step(cfg, s, run[0]), run[1..]);
    }
  }

  /** Whatever the interleaving, a relay that has gone has reported exactly what its loop reports on
      the chunks the writer received. */
  lemma RelayRefinesLoop(cfg: Config, run: seq<Label>, s: State)
    requires Reached(cfg, run, s) && s.relay.RelayGone?
    ensures Only(IsReport, s.log) == Account(cfg.limited, s.received)
  {
    ReportedAlong(cfg, INIT, run);
    Invariant(cfg, run, s);
    AccountWhenGone(cfg, s);
  }

  lemma AccountWhenGone(cfg: Config, s: State)
    requires Accumulated(cfg, s) && s.relay.RelayGone?
    ensures Reported(cfg, s) == Account(cfg.limited, s.received)
  {
    assert Absorbed(s) == s.received;
    Associative(ErrorEvents(s.received), UsageCommits(cfg, s), TerminalEvents(s));
  }

  /** As long as the context outlives the relay, every maximal run of the interleaved system on a stream
      with no chunk after an error chunk does what the three loops do one after the other: the relay
      reports on the forwarder's whole output, and the client gets its frames. */
  lemma PipelineRefinesLoops(cfg: Config, run: seq<Label>, s: State)
    requires Reached(cfg, run, s) && Stuck(cfg, s) && Undisturbed(cfg, run) && ErrorOnlyLast(Stream(cfg))
    ensures Final(s)
    ensures Only(IsReport, s.log) == Account(cfg.limited, Stream(cfg))
    ensures Only(IsFrame, s.log) == FramesOf(Stream(cfg)) + if ErrorFree(Stream(cfg)) then [DoneFrame] else []
  {
    UndisturbedOutcome(cfg, run, s);
    Invariant(cfg, run, s);
    StuckStates(cfg, s);
    RelayRefinesLoop(cfg, run, s);
    FramesWritten(cfg, run, s);
  }
}
