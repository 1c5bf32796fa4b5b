/** Whether a stream always ends: every run is finite, and the reachable states where nothing can
    happen any more are the final ones, unless the relay is left sending to a writer that has stopped. */
module RelayProgress {
  import opened Capabilities
  import opened Relay
  import RelayEnding

  function ForwarderRank(f: Forwarder): nat {
    match f
    case Calling => 6
    case Offering(_, last) => if last then 5 else 10
    case SignallingDone => 2
    case ClosingCh => 1
    case ForwarderGone => 0
  }

  function RelayRank(r: Goroutine): nat {
    match r
    case Absorbing(_) => 6
    case Sending(_) => 5
    case Receiving => 4
    case Settling => 3
    case Reporting => 2
    case ClosingOut => 1
    case RelayGone => 0
  }

  function CancellerRank(c: Canceller): nat {
    match c case Watching => 2 case Cancelling => 1 case CancellerGone => 0
  }

  /** An upper bound on the number of steps still to come. */
  function Measure(cfg: Config, s: State): nat
    requires s.next <= |cfg.replies|
  {
    5 * (|cfg.replies| - s.next) + ForwarderRank(s.forwarder) + RelayRank(s.relay)
    + (if s.writer.Reading? then 1 else 0) + CancellerRank(s.canceller) + (if s.ctxDone then 0 else 1)
  }

  /** Every step brings the end nearer. */
  lemma StepDecreases(cfg: Config, s: State, l: Label)
    requires s.next <= |cfg.replies| && Enabled(cfg, s, l)
    ensures Step(cfg, s, l).next <= |cfg.replies| && Measure(cfg, Step(cfg, s, l)) < Measure(cfg, s)
  {
    if ByForwarder(l) {
      ForwarderStepDecreases(cfg, s, l);
    } else {
      OtherStepDecreases(cfg, s, l);
    }
  }

  lemma ForwarderStepDecreases(cfg: Config, s: State, l: Label)
    requires s.next <= |cfg.replies| && Enabled(cfg, s, l) && ByForwarder(l)
    ensures Step(cfg, s, l).next <= |cfg.replies| && Measure(cfg, Step(cfg, s, l)) < Measure(cfg, s)
  {
    var t := Step(cfg, s, l);
    assert t.writer == s.writer && t.canceller == s.canceller && t.ctxDone == s.ctxDone;
  }

  lemma OtherStepDecreases(cfg: Config, s: State, l: Label)
    requires s.next <= |cfg.replies| && Enabled(cfg, s, l) && !ByForwarder(l)
    ensures Step(cfg, s, l).next <= |cfg.replies| && Measure(cfg, Step(cfg, s, l)) < Measure(cfg, s)
  {
    var t := Step(cfg, s, l);
    assert t.forwarder == s.forwarder && t.next == s.next;
  }

  /** No run is longer than five steps a reply and fourteen more. */
  lemma {:induction false} RunsAreFinite(cfg: Config, s: State, run: seq<Label>)
    requires s.next <= |cfg.replies| && CanRun(cfg, s, run)
    ensures |run| <= Measure(cfg, s)
    decreases |run|
  {
    if run != [] {
      StepDecreases(cfg, s, run[0]);
      RunsAreFinite(cfg, Step(cfg, s, run[0]), run[1..]);
    }
  }

  /** No process can take a step; the end of the context is the environment's to choose. */
  ghost predicate Stuck(cfg: Config, s: State) {
    forall l :: Enabled(cfg, s, l) ==> l.ContextDone?
  }

  /** The relay is sending to `out`, which nobody reads any more. */
  predicate Leaked(s: State) {
    s.relay.Sending? && s.writer.Stopped?
  }

  lemma StuckRelay(cfg: Config, s: State)
    requires Inv(cfg, s) && Stuck(cfg, s)
    ensures (s.relay.RelayGone? && s.outClosed) || Leaked(s) || (s.relay.Receiving? && !s.chClosed)
    ensures s.writer.Reading? ==> !s.outClosed
  {
    assert !Enabled(cfg, s, Absorb) && !Enabled(cfg, s, Deliver) && !Enabled(cfg, s, SeeClosed);
    assert !Enabled(cfg, s, Settle) && !Enabled(cfg, s, Report) && !Enabled(cfg, s, CloseOut);
    assert !Enabled(cfg, s, WriterEnds);
  }

  lemma StuckForwarder(cfg: Config, s: State)
    requires Inv(cfg, s) && Stuck(cfg, s)
    ensures s.forwarder.ForwarderGone? || s.forwarder.Offering?
    ensures s.forwarder.Offering? ==> !s.relay.Receiving?
    ensures s.forwarder.ForwarderGone? ==> s.canceller.CancellerGone?
  {
    assert !Enabled(cfg, s, Reply) && !Enabled(cfg, s, ReplyEof) && !Enabled(cfg, s, HandOver);
    assert cfg.ending.CallFails? ==> !Enabled(cfg, s, CallError(cfg.ending.message));
    assert !Enabled(cfg, s, SignalDone) && !Enabled(cfg, s, CloseCh);
    assert !Enabled(cfg, s, CancelCall) && !Enabled(cfg, s, CancelReturns) && !Enabled(cfg, s, CancelSkipped);
  }

  /** A reachable state where no process can move is final, or the relay has leaked. */
  lemma StuckStates(cfg: Config, s: State)
    requires Inv(cfg, s) && Stuck(cfg, s)
    ensures Final(s) || Leaked(s)
  {
    StuckRelay(cfg, s);
    StuckForwarder(cfg, s);
  }

  lemma LeakKept(cfg: Config, s: State, l: Label)
    requires Enabled(cfg, s, l) && Leaked(s)
    ensures Leaked(Step(cfg, s, l)) && Step(cfg, s, l).log == s.log
  {
    assert Step(cfg, s, l).relay == s.relay && Step(cfg, s, l).writer == s.writer;
  }

  /** A leaked relay stays leaked whatever happens next. */
  lemma {:induction false} LeakIsForever(cfg: Config, s: State, run: seq<Label>)
    requires Leaked(s) && CanRun(cfg, s, run)
    ensures Leaked(After(cfg, s, run)) && After(cfg, s, run).log == s.log
    decreases |run|
  {
    if run != [] {
      LeakKept(cfg, s, run[0]);
      LeakIsForever(cfg, Step(cfg, s, run[0]), run[1..]);
    }
  }

  /** So it never commits its usage and never says how its stream ended. */
  lemma LeakedRelayNeverSettles(cfg: Config, run: seq<Label>, s: State, more: seq<Label>)
    requires Reached(cfg, run, s) && Leaked(s) && CanRun(cfg, s, more)
    ensures var log := After(cfg, s, more).log;
            RelayEnding.Only(RelayEnding.IsCommit, log) == [] && RelayEnding.Only(RelayEnding.IsTerminal, log) == []
  {
    LeakIsForever(cfg, s, more);
    RelayEnding.LogInvariant(cfg, run, s);
  }

  /** How a leak shows in the chunks: the writer got an error chunk and another chunk came after it. */
  lemma LeakShape(cfg: Config, s: State)
    requires Inv(cfg, s) && Leaked(s)
    ensures s.received != [] && s.received[|s.received| - 1].error.Some?
    ensures s.received + [s.relay.got] <= cfg.replies[..s.next] + s.synthetic
  {
    assert s.received + [s.relay.got]
        <= s.received + RelayHeld(s) + ForwarderHeld(s) + s.dropped;
  }

  lemma LeakMeansFollowed(cfg: Config, s: State)
    requires Inv(cfg, s) && Leaked(s)
    ensures !ErrorOnlyLast(cfg.replies[..s.next] + s.synthetic)
  {
    LeakShape(cfg, s);
    var k := |s.received| - 1;
    var offered := cfg.replies[..s.next] + s.synthetic;
    assert offered[k] == (s.received + [s.relay.got])[k] == s.received[k];
  }

  lemma NoLeakWhileContextLives(cfg: Config, s: State)
    requires Inv(cfg, s) && !s.ctxDone && ErrorOnlyLast(Stream(cfg))
    ensures !Leaked(s)
  {
    var offered := cfg.replies[..s.next] + s.synthetic;
    assert offered <= Stream(cfg);
    assert forall i :: 0 <= i < |offered| - 1 ==> offered[i] == Stream(cfg)[i];
    if Leaked(s) {
      LeakMeansFollowed(cfg, s);
    }
  }

  lemma NoLeakWithoutErrors(cfg: Config, s: State)
    requires Inv(cfg, s) && ErrorFree(cfg.replies)
    ensures !Leaked(s)
  {
    var offered := cfg.replies[..s.next] + s.synthetic;
    assert forall i :: 0 <= i < |offered| - 1 ==> offered[i] == cfg.replies[i];
    if Leaked(s) {
      LeakMeansFollowed(cfg, s);
    }
  }

  /** No step sends on, or closes, a channel that is closed already: Go would panic there. */
  lemma ChannelsClosedOnce(cfg: Config, run: seq<Label>, s: State, l: Label)
    requires Reached(cfg, run, s) && Enabled(cfg, s, l)
    ensures l.CloseCh? || l.HandOver? ==> !s.chClosed
    ensures l.CloseOut? || l.Deliver? ==> !s.outClosed
    ensures l.SignalDone? ==> !s.streamDone
  {
    Invariant(cfg, run, s);
  }

  /** Any reached state can be run on, without ending the context, until no process can move. */
  lemma {:induction false} RunToStuck(cfg: Config, run: seq<Label>, s: State)
    returns (run': seq<Label>, t: State, more: seq<Label>)
    requires Reached(cfg, run, s) && s.next <= |cfg.replies|
    ensures CanRun(cfg, s, more) && After(cfg, s, more) == t && t.ctxDone == s.ctxDone
    ensures Reached(cfg, run', t) && Stuck(cfg, t)
    decreases Measure(cfg, s)
  {
    if Stuck(cfg, s) {
      run', t, more := run, s, [];
    } else {
      var l :| Enabled(cfg, s, l) && !l.ContextDone?;
      StepDecreases(cfg, s, l);
      var next, s1 := Then(cfg, run, s, l);
      var rest;
      run', t, rest := RunToStuck(cfg, next, s1);
      more := [l] + rest;
      assert more[1..] == rest;
    }
  }

  /** Whenever nothing can move any more and the context lives, the stream has ended properly. */
  ghost predicate EndsWhileContextLives(cfg: Config) {
    forall run, s :: Reached(cfg, run, s) && Stuck(cfg, s) && !s.ctxDone ==> Final(s)
  }

  /** Whenever nothing can move any more the stream has ended properly, whenever the context ended. */
  ghost predicate AlwaysEnds(cfg: Config) {
    forall run, s :: Reached(cfg, run, s) && Stuck(cfg, s) ==> Final(s)
  }

  lemma FinalReceivedAll(cfg: Config, run: seq<Label>, s: State)
    requires Reached(cfg, run, s) && Final(s) && !s.ctxDone
    ensures s.received == Stream(cfg) && ErrorOnlyLast(s.received)
  {
    RelayAccumulates(cfg, run, s);
    Invariant(cfg, run, s);
    assert Absorbed(s) == s.received;
  }

  /** As long as the context lives, every maximal run ends the stream properly if and only if no
      chunk follows an error chunk. */
  lemma ProgressWhileContextLives(cfg: Config)
    ensures EndsWhileContextLives(cfg) <==> ErrorOnlyLast(Stream(cfg))
  {
    if EndsWhileContextLives(cfg) {
      var run, s, _ := RunToStuck(cfg, [], INIT);
      FinalReceivedAll(cfg, run, s);
    }
    if ErrorOnlyLast(Stream(cfg)) {
      forall run, s | Reached(cfg, run, s) && Stuck(cfg, s) && !s.ctxDone ensures Final(s) {
        Invariant(cfg, run, s);
        StuckStates(cfg, s);
        NoLeakWhileContextLives(cfg, s);
      }
    }
  }

  /** The plugin has sent everything but its end of stream, and everything sent is with the writer. */
  predicate AllDelivered(cfg: Config, s: State) {
    s.forwarder.Calling? && s.relay.Receiving? && s.received == cfg.replies
  }

  /** The forwarder has neither failed nor seen the end of the stream. */
  predicate Pumping(s: State) {
    && !s.ctxDone && s.synthetic == []
    && (s.forwarder.Calling? || (s.forwarder.Offering? && !s.forwarder.last))
  }

  lemma StillPumping(cfg: Config, s: State, l: Label)
    requires cfg.ending.Eof? && Pumping(s) && Enabled(cfg, s, l) && !l.ContextDone? && !l.ReplyEof?
    ensures Pumping(Step(cfg, s, l))
  {
  }

  lemma IdleBeforeEof(cfg: Config, s: State)
    requires Inv(cfg, s) && Pumping(s) && !Leaked(s)
    requires forall l :: Enabled(cfg, s, l) ==> l.ContextDone? || l.ReplyEof?
    ensures AllDelivered(cfg, s)
  {
    assert !Enabled(cfg, s, Absorb) && !Enabled(cfg, s, Deliver);
    assert !Enabled(cfg, s, Reply) && !Enabled(cfg, s, HandOver);
    assert s.received == s.received + RelayHeld(s) + ForwarderHeld(s) + s.dropped;
    assert cfg.replies[..s.next] + s.synthetic == cfg.replies;
  }

  lemma {:induction false} DeliverAll(cfg: Config, run: seq<Label>, s: State) returns (run': seq<Label>, t: State)
    requires Reached(cfg, run, s) && s.next <= |cfg.replies|
    requires cfg.ending.Eof? && ErrorOnlyLast(cfg.replies)
    requires Pumping(s)
    ensures Reached(cfg, run', t) && AllDelivered(cfg, t)
    decreases Measure(cfg, s)
  {
    Invariant(cfg, run, s);
    assert Stream(cfg) == cfg.replies;
    NoLeakWhileContextLives(cfg, s);
    if forall l :: Enabled(cfg, s, l) ==> l.ContextDone? || l.ReplyEof? {
      IdleBeforeEof(cfg, s);
      run', t := run, s;
    } else {
      var l :| Enabled(cfg, s, l) && !l.ContextDone? && !l.ReplyEof?;
      StepDecreases(cfg, s, l);
      StillPumping(cfg, s, l);
      run', t := Then(cfg, run, s, l);
      run', t := DeliverAll(cfg, run', t);
    }
  }

  /** An error chunk as the last reply stops the writer, which ends the request and so its context;
      the call that waits for the end of the stream may then fail, and its error chunk leaks the relay. */
  lemma LeakAfterLastError(cfg: Config) returns (run: seq<Label>, s: State)
    requires cfg.ending.Eof? && ErrorOnlyLast(cfg.replies) && !ErrorFree(cfg.replies)
    ensures Reached(cfg, run, s) && Leaked(s)
  {
    run, s := DeliverAll(cfg, [], INIT);
    Invariant(cfg, run, s);
    assert s.writer.Stopped?;
    if !s.ctxDone {
      run, s := Then(cfg, run, s, ContextDone);
    }
    run, s := Then(cfg, run, s, CallError("context canceled"));
    run, s := Then(cfg, run, s, HandOver);
    run, s := Then(cfg, run, s, Absorb);
  }

  /** Whenever the context may end, every maximal run ends the stream properly if and only if no
      reply carries an error at all. */
  lemma ProgressUnderCancellation(cfg: Config)
    ensures AlwaysEnds(cfg) <==> ErrorFree(cfg.replies)
  {
    if ErrorFree(cfg.replies) {
      forall run, s | Reached(cfg, run, s) && Stuck(cfg, s) ensures Final(s) {
        Invariant(cfg, run, s);
        StuckStates(cfg, s);
        NoLeakWithoutErrors(cfg, s);
      }
    } else if ErrorOnlyLast(Stream(cfg)) {
      ErrorEndsStream(cfg);
      var run, s := LeakAfterLastError(cfg);
      Invariant(cfg, run, s);
      var run', t, more := RunToStuck(cfg, run, s);
      LeakIsForever(cfg, s, more);
      assert !Final(t);
    } else {
      ProgressWhileContextLives(cfg);
    }
  }

  lemma ErrorEndsStream(cfg: Config)
    requires !ErrorFree(cfg.replies) && ErrorOnlyLast(Stream(cfg))
    ensures cfg.ending.Eof? && ErrorOnlyLast(cfg.replies)
  {
    var k :| 0 <= k < |cfg.replies| && cfg.replies[k].error.Some?;
    assert Stream(cfg)[k] == cfg.replies[k];
    assert forall i :: 0 <= i < |cfg.replies| ==> Stream(cfg)[i] == cfg.replies[i];
  }

  // ---------------------------------------------------------------- streams whose context outlives the relay

  lemma GoneKept(cfg: Config, s: State, l: Label)
    requires s.relay.RelayGone? && Enabled(cfg, s, l)
    ensures var t := Step(cfg, s, l);
            t.relay.RelayGone? && t.received == s.received && t.usage == s.usage && t.text == s.text
  {
    assert Step(cfg, s, l) == Move(cfg, s, l).(log := s.log + Emitted(cfg, s, l));
    if ByForwarder(l) {
      assert !l.HandOver?;
    } else {
      assert l.WriterEnds? || l.ContextDone? || l.CancelCall? || l.CancelReturns? || l.CancelSkipped?;
    }
  }

  /** A relay that has gone leaves everything as it is but for the end of the stream at the client. */
  lemma {:induction false} GoneIsForever(cfg: Config, s: State, run: seq<Label>)
    requires s.relay.RelayGone? && CanRun(cfg, s, run)
    ensures var t := After(cfg, s, run);
            t.relay.RelayGone? && t.received == s.received && t.usage == s.usage && t.text == s.text
    decreases |run|
  {
    if run != [] {
      GoneKept(cfg, s, run[0]);
      GoneIsForever(cfg, Step(cfg, s, run[0]), run[1..]);
    }
  }

  /** The context has not ended, and the relay has gone or can never go on. */
  predicate Settling(s: State) {
    !s.ctxDone && (s.relay.RelayGone? || Leaked(s))
  }

  /** In this run the context lives until the relay has gone, or can never go on.  It may end then,
      as it does when the request's handler returns. */
  ghost predicate Undisturbed(cfg: Config, run: seq<Label>) {
    exists k :: SettlesAt(cfg, run, k)
  }

  predicate SettlesAt(cfg: Config, run: seq<Label>, k: int) {
    0 <= k <= |run| && CanRun(cfg, INIT, run[..k]) && Settling(After(cfg, INIT, run[..k]))
  }

  /** In particular a run is undisturbed if the context still lives where no process can move. */
  lemma AliveIsUndisturbed(cfg: Config, run: seq<Label>, s: State)
    requires Reached(cfg, run, s) && Stuck(cfg, s) && !s.ctxDone
    ensures Undisturbed(cfg, run)
  {
    Invariant(cfg, run, s);
    StuckStates(cfg, s);
    assert run[..|run|] == run;
    assert SettlesAt(cfg, run, |run|);
  }

  lemma UndisturbedSplits(cfg: Config, run: seq<Label>, s: State)
    returns (first: seq<Label>, mid: State, more: seq<Label>)
    requires Reached(cfg, run, s) && Undisturbed(cfg, run)
    ensures Reached(cfg, first, mid) && Settling(mid) && CanRun(cfg, mid, more) && After(cfg, mid, more) == s
  {
    var k :| SettlesAt(cfg, run, k);
    first, more := run[..k], run[k..];
    mid := After(cfg, INIT, first);
    assert run == first + more;
    RunAppend(cfg, INIT, first, more);
  }

  /** An undisturbed relay leaks exactly if some chunk follows an error chunk; otherwise it passes the
      whole stream on. */
  lemma UndisturbedOutcome(cfg: Config, run: seq<Label>, s: State)
    requires Reached(cfg, run, s) && Undisturbed(cfg, run)
    ensures Leaked(s) <==> !ErrorOnlyLast(Stream(cfg))
    ensures !Leaked(s) ==> s.relay.RelayGone? && s.received == Stream(cfg)
  {
    var first, mid, more := UndisturbedSplits(cfg, run, s);
    Invariant(cfg, first, mid);
    if Leaked(mid) {
      LeakIsForever(cfg, mid, more);
      if ErrorOnlyLast(Stream(cfg)) {
        NoLeakWhileContextLives(cfg, mid);
      }
    } else {
      RelayAccumulates(cfg, first, mid);
      assert Absorbed(mid) == mid.received;
      GoneIsForever(cfg, mid, more);
    }
  }

  /** In an undisturbed run `[DONE]` is always true. */
  lemma DoneWhileContextLives(cfg: Config, run: seq<Label>, s: State)
    requires Reached(cfg, run, s) && DoneFrame in s.log && Undisturbed(cfg, run)
    ensures s.received == cfg.replies && cfg.ending.Eof?
  {
    RelayEnding.FramesWritten(cfg, run, s);
    RelayEnding.LogInvariant(cfg, run, s);
    RelayEnding.DoneAtEnd(s);
    UndisturbedOutcome(cfg, run, s);
    CallFailureIsAnError(cfg);
  }

  /** Payload capture agrees with collecting the same replies, on every error-free stream whose
      context outlives the relay: same text, same usage. */
  lemma CaptureIsCollection(cfg: Config, run: seq<Label>, s: State)
    requires Reached(cfg, run, s) && Undisturbed(cfg, run) && ErrorFree(Stream(cfg))
    ensures s.received == cfg.replies
    ensures s.usage == LastUsage(NO_USAGE, cfg.replies) && (cfg.capture ==> s.text == TextOf(cfg.replies))
  {
    UndisturbedOutcome(cfg, run, s);
    RelayAccumulates(cfg, run, s);
    CallFailureIsAnError(cfg);
    assert Absorbed(s) == s.received;
    assert Stream(cfg) == cfg.replies;
  }

  lemma CallFailureIsAnError(cfg: Config)
    ensures cfg.ending.CallFails? ==> !ErrorFree(Stream(cfg))
  {
    if cfg.ending.CallFails? {
      assert Stream(cfg)[|cfg.replies|] == StreamFailed(cfg.ending.message);
    }
  }
}
