/** How a stream ends, and what has already happened by then: the order of the frames the client
    sees against the events, usage commits and errors the gateway records. */
module RelayEnding {
  import opened Capabilities
  import opened Relay
  import opened Sequences

  predicate IsTerminal(a: Action) { a.CompletedEvent? || a.FailedEvent? }

  predicate IsCommit(a: Action) { a.Commit? }

  predicate IsFrame(a: Action) { a.DataFrame? || a.ErrorFrame? || a.DoneFrame? }

  function Only(p: Action -> bool, log: seq<Action>): seq<Action> {
    if log == [] then [] else Keep(p, log[0]) + Only(p, log[1..])
  }

  function Keep(p: Action -> bool, a: Action): seq<Action> {
    if p(a) then [a] else []
  }

  lemma {:induction false} OnlyAppend(p: Action -> bool, a: seq<Action>, b: seq<Action>)
    ensures Only(p, a + b) == Only(p, a) + Only(p, b)
  {
    if a == [] {
      assert a + b == b;
    } else {
      OnlyAppend(p, a[1..], b);
      assert (a + b)[1..] == a[1..] + b;
      Associative(Keep(p, a[0]), Only(p, a[1..]), Only(p, b));
    }
  }

  lemma {:induction false} OnlyMembers(p: Action -> bool, log: seq<Action>, a: Action)
    ensures a in Only(p, log) <==> a in log && p(a)
  {
    if log != [] {
      OnlyMembers(p, log[1..], a);
      assert log == [log[0]] + log[1..];
    }
  }

  lemma OnlyOne(p: Action -> bool, a: Action)
    ensures Only(p, [a]) == Keep(p, a)
  {
    assert [a][1..] == [];
  }

  function FramesOf(received: seq<ResponseChunk>): seq<Action> {
    if received == [] then [] else Frames(received[0]) + FramesOf(received[1..])
  }

  lemma {:induction false} FramesOfSnoc(a: seq<ResponseChunk>, c: ResponseChunk)
    ensures FramesOf(a + [c]) == FramesOf(a) + Frames(c)
  {
    if a == [] {
      assert a + [c] == [c];
    } else {
      FramesOfSnoc(a[1..], c);
      assert (a + [c])[1..] == a[1..] + [c];
      Associative(Frames(a[0]), FramesOf(a[1..]), Frames(c));
    }
  }

  /** The single event that closes the request's account, once the relay has sent it. */
  function TerminalEvents(s: State): seq<Action> {
    if s.relay.ClosingOut? || s.relay.RelayGone?
    then [if s.failed then FailedEvent else CompletedEvent(s.usage)] else []
  }

  /** The usage commits made so far. */
  function UsageCommits(cfg: Config, s: State): seq<Action> {
    if Draining(s.relay) && !s.relay.Settling? && cfg.limited && s.usage.total > 0 then [Commit(s.usage)] else []
  }

  /** The frames written so far. */
  function Written(s: State): seq<Action> {
    FramesOf(s.received) + if s.writer.Stopped? && ErrorFree(s.received) then [DoneFrame] else []
  }

  ghost predicate LogContents(cfg: Config, s: State) {
    && Only(IsTerminal, s.log) == TerminalEvents(s)
    && Only(IsCommit, s.log) == UsageCommits(cfg, s)
    && Only(IsFrame, s.log) == Written(s)
  }

  /** No usage is committed after the terminal event. */
  ghost predicate CommitsFirst(s: State) {
    forall i, j :: 0 <= i < j < |s.log| && IsTerminal(s.log[i]) ==> !IsCommit(s.log[j])
  }

  /** `[DONE]` is the last action of all, and the relay has gone by then. */
  ghost predicate DoneLast(s: State) {
    forall i :: 0 <= i < |s.log| && s.log[i].DoneFrame? ==>
      i == |s.log| - 1 && s.writer.Stopped? && s.relay.RelayGone?
  }

  /** An `upstream.error` event goes before every error frame. */
  ghost predicate ErrorsReported(s: State) {
    && (forall i :: 0 <= i < |s.log| && s.log[i].ErrorFrame? ==> UpstreamErrorEvent in s.log[..i])
    && (s.failed ==> UpstreamErrorEvent in s.log)
  }

  ghost predicate LogInv(cfg: Config, s: State) {
    LogContents(cfg, s) && CommitsFirst(s) && DoneLast(s) && ErrorsReported(s)
  }

  lemma FramesAreFrames(c: ResponseChunk)
    ensures Only(IsFrame, Frames(c)) == Frames(c)
  {
    if Frames(c) != [] {
      assert Frames(c)[1..] == [];
    }
  }

  lemma WrittenDeliver(cfg: Config, s: State)
    requires WriterState(s) && Enabled(cfg, s, Deliver)
    ensures Written(Step(cfg, s, Deliver)) == Written(s) + Only(IsFrame, Emitted(cfg, s, Deliver))
  {
    FramesOfSnoc(s.received, s.relay.got);
    FramesAreFrames(s.relay.got);
    ErrorFreeSnoc(s.received, s.relay.got);
    assert Written(s) == FramesOf(s.received);
    assert Written(Step(cfg, s, Deliver)) == FramesOf(s.received + [s.relay.got]);
  }

  lemma WrittenEnds(cfg: Config, s: State)
    requires Control(cfg, s) && WriterState(s) && Enabled(cfg, s, WriterEnds)
    ensures Written(Step(cfg, s, WriterEnds)) == Written(s) + Only(IsFrame, Emitted(cfg, s, WriterEnds))
  {
    OnlyOne(IsFrame, DoneFrame);
    assert Written(s) == FramesOf(s.received);
  }

  lemma WrittenQuiet(cfg: Config, s: State, l: Label)
    requires Enabled(cfg, s, l) && !l.Deliver? && !l.WriterEnds?
    ensures Written(Step(cfg, s, l)) == Written(s) && Only(IsFrame, Emitted(cfg, s, l)) == []
  {
    var t := Step(cfg, s, l);
    assert t.received == s.received && t.writer == s.writer;
  }

  lemma WrittenStep(cfg: Config, s: State, l: Label)
    requires Control(cfg, s) && WriterState(s) && Enabled(cfg, s, l)
    ensures Written(Step(cfg, s, l)) == Written(s) + Only(IsFrame, Emitted(cfg, s, l))
  {
    if l.Deliver? {
      WrittenDeliver(cfg, s);
    } else if l.WriterEnds? {
      WrittenEnds(cfg, s);
    } else {
      WrittenQuiet(cfg, s, l);
    }
  }

  lemma TerminalQuiet(cfg: Config, s: State, l: Label)
    requires Enabled(cfg, s, l) && !l.Report?
    ensures TerminalEvents(Step(cfg, s, l)) == TerminalEvents(s) && Only(IsTerminal, Emitted(cfg, s, l)) == []
  {
  }

  lemma TerminalStep(cfg: Config, s: State, l: Label)
    requires Enabled(cfg, s, l)
    ensures TerminalEvents(Step(cfg, s, l)) == TerminalEvents(s) + Only(IsTerminal, Emitted(cfg, s, l))
  {
    if l.Report? {
      OnlyOne(IsTerminal, Emitted(cfg, s, l)[0]);
    } else {
      TerminalQuiet(cfg, s, l);
    }
  }

  lemma CommitQuiet(cfg: Config, s: State, l: Label)
    requires Enabled(cfg, s, l) && !l.Settle?
    ensures UsageCommits(cfg, Step(cfg, s, l)) == UsageCommits(cfg, s) && Only(IsCommit, Emitted(cfg, s, l)) == []
  {
  }

  lemma CommitStep(cfg: Config, s: State, l: Label)
    requires Enabled(cfg, s, l)
    ensures UsageCommits(cfg, Step(cfg, s, l)) == UsageCommits(cfg, s) + Only(IsCommit, Emitted(cfg, s, l))
  {
    if l.Settle? {
      OnlyOne(IsCommit, Commit(s.usage));
    } else {
      CommitQuiet(cfg, s, l);
    }
  }

  lemma LogContentsStep(cfg: Config, s: State, l: Label)
    requires Control(cfg, s) && WriterState(s) && LogContents(cfg, s) && Enabled(cfg, s, l)
    ensures LogContents(cfg, Step(cfg, s, l))
  {
    OnlyAppend(IsTerminal, s.log, Emitted(cfg, s, l));
    OnlyAppend(IsCommit, s.log, Emitted(cfg, s, l));
    OnlyAppend(IsFrame, s.log, Emitted(cfg, s, l));
    TerminalStep(cfg, s, l);
    CommitStep(cfg, s, l);
    WrittenStep(cfg, s, l);
  }

  lemma CommitsFirstStep(cfg: Config, s: State, l: Label)
    requires LogContents(cfg, s) && CommitsFirst(s) && Enabled(cfg, s, l)
    ensures CommitsFirst(Step(cfg, s, l))
  {
    if l.Settle? {
      forall i | 0 <= i < |s.log| ensures !IsTerminal(s.log[i]) {
        OnlyMembers(IsTerminal, s.log, s.log[i]);
      }
    }
  }

  lemma DoneLastStep(cfg: Config, s: State, l: Label)
    requires Control(cfg, s) && DoneLast(s) && Enabled(cfg, s, l)
    ensures DoneLast(Step(cfg, s, l))
  {
  }

  lemma ErrorsReportedStep(cfg: Config, s: State, l: Label)
    requires Accumulated(cfg, s) && ErrorsReported(s) && Enabled(cfg, s, l)
    ensures ErrorsReported(Step(cfg, s, l))
  {
    var t := Step(cfg, s, l);
    assert forall i :: 0 <= i <= |s.log| ==> t.log[..i] == s.log[..i];
    if l.Deliver? && s.relay.got.error.Some? {
      assert Absorbed(s)[|s.received|] == s.relay.got;
      assert s.log[..|s.log|] == s.log;
    } else if l.Absorb? && s.relay.got.error.Some? {
      assert t.log[|s.log|] == UpstreamErrorEvent;
    }
  }

  lemma {:induction false} LogAlong(cfg: Config, s: State, run: seq<Label>)
    requires Inv(cfg, s) && LogInv(cfg, s) && CanRun(cfg, s, run)
    ensures var t := After(cfg, s, run); Inv(cfg, t) && LogInv(cfg, t)
    decreases |run|
  {
    if run != [] {
      InvStep(cfg, s, run[0]);
      LogContentsStep(cfg, s, run[0]);
      CommitsFirstStep(cfg, s, run[0]);
      DoneLastStep(cfg, s, run[0]);
      ErrorsReportedStep(cfg, s, run[0]);
      LogAlong(cfg, Step(cfg, s, run[0]), run[1..]);
    }
  }

  lemma LogInvariant(cfg: Config, run: seq<Label>, s: State)
    requires Reached(cfg, run, s)
    ensures Inv(cfg, s) && LogInv(cfg, s)
  {
    LogAlong(cfg, INIT, run);
  }

  lemma {:induction false} FramesHaveNoDone(received: seq<ResponseChunk>)
    ensures DoneFrame !in FramesOf(received)
    ensures ErrorFree(received) ==> forall a :: a in FramesOf(received) ==> a.DataFrame?
  {
    if received != [] {
      FramesHaveNoDone(received[1..]);
    }
  }

  /** In every reachable state the frames written are those of the chunks received, and `[DONE]`
      follows exactly when the stream ended without an error chunk. */
  lemma FramesWritten(cfg: Config, run: seq<Label>, s: State)
    requires Reached(cfg, run, s)
    ensures Only(IsFrame, s.log) == FramesOf(s.received) + if DoneFrame in s.log then [DoneFrame] else []
    ensures DoneFrame in s.log <==> s.writer.Stopped? && ErrorFree(s.received)
  {
    LogInvariant(cfg, run, s);
    OnlyMembers(IsFrame, s.log, DoneFrame);
    FramesHaveNoDone(s.received);
  }

  function AllButLast(log: seq<Action>): seq<Action> {
    if log == [] then [] else log[..|log| - 1]
  }

  lemma DoneAtEnd(s: State)
    requires DoneLast(s) && DoneFrame in s.log
    ensures s.log != [] && s.log[|s.log| - 1] == DoneFrame && s.relay.RelayGone?
  {
    var i :| 0 <= i < |s.log| && s.log[i] == DoneFrame;
    assert i == |s.log| - 1;
  }

  /** The commit a relay owes for the chunks it has passed on. */
  function CommitDue(cfg: Config, chunks: seq<ResponseChunk>): seq<Action> {
    var usage := LastUsage(NO_USAGE, chunks);
    if cfg.limited && usage.total > 0 then [Commit(usage)] else []
  }

  /** The account of a relay that has gone: its one terminal event and its commit, if one is due. */
  lemma Settled(cfg: Config, s: State)
    requires LogContents(cfg, s) && Accumulated(cfg, s) && s.relay.RelayGone?
    ensures Only(IsTerminal, s.log)
         == [if ErrorFree(s.received) then CompletedEvent(LastUsage(NO_USAGE, s.received)) else FailedEvent]
    ensures Only(IsCommit, s.log) == CommitDue(cfg, s.received)
  {
    assert Absorbed(s) == s.received;
  }

  lemma OnlyWithoutDone(p: Action -> bool, log: seq<Action>)
    requires !p(DoneFrame)
    ensures Only(p, log + [DoneFrame]) == Only(p, log)
  {
    OnlyAppend(p, log, [DoneFrame]);
    OnlyOne(p, DoneFrame);
  }

  /** When `[DONE]` is written it is the last action; the usage commit (if one is due) and the one
      `request.completed` event came before it. */
  lemma DoneComesLast(cfg: Config, run: seq<Label>, s: State)
    requires Reached(cfg, run, s) && DoneFrame in s.log
    ensures s.log == AllButLast(s.log) + [DoneFrame]
    ensures Only(IsTerminal, AllButLast(s.log)) == [CompletedEvent(LastUsage(NO_USAGE, s.received))]
    ensures Only(IsCommit, AllButLast(s.log)) == CommitDue(cfg, s.received)
  {
    DoneFacts(cfg, run, s);
    SettledBeforeDone(cfg, s);
  }

  lemma SettledBeforeDone(cfg: Config, s: State)
    requires LogContents(cfg, s) && Accumulated(cfg, s) && s.relay.RelayGone? && ErrorFree(s.received)
    requires s.log != [] && s.log[|s.log| - 1] == DoneFrame
    ensures s.log == AllButLast(s.log) + [DoneFrame]
    ensures Only(IsTerminal, AllButLast(s.log)) == [CompletedEvent(LastUsage(NO_USAGE, s.received))]
    ensures Only(IsCommit, AllButLast(s.log)) == CommitDue(cfg, s.received)
  {
    Settled(cfg, s);
    LastSplits(s.log, DoneFrame);
    OnlyWithoutDone(IsTerminal, AllButLast(s.log));
    OnlyWithoutDone(IsCommit, AllButLast(s.log));
  }

  lemma DoneFacts(cfg: Config, run: seq<Label>, s: State)
    requires Reached(cfg, run, s) && DoneFrame in s.log
    ensures LogContents(cfg, s) && Accumulated(cfg, s) && ErrorFree(s.received)
    ensures s.log != [] && s.log[|s.log| - 1] == DoneFrame && s.relay.RelayGone?
  {
    FramesWritten(cfg, run, s);
    LogInvariant(cfg, run, s);
    DoneAtEnd(s);
  }

  lemma LastSplits(log: seq<Action>, last: Action)
    requires log != [] && log[|log| - 1] == last
    ensures log == AllButLast(log) + [last]
  {
  }

  lemma ErrorFrameMeansError(s: State, i: nat)
    requires Only(IsFrame, s.log) == Written(s) && i < |s.log| && s.log[i].ErrorFrame?
    ensures !ErrorFree(s.received)
  {
    OnlyMembers(IsFrame, s.log, s.log[i]);
    FramesHaveNoDone(s.received);
  }

  /** An error frame follows an `upstream.error` event and excludes `[DONE]`. */
  lemma ErrorFrameExcludesDone(cfg: Config, run: seq<Label>, s: State, i: nat)
    requires Reached(cfg, run, s) && i < |s.log| && s.log[i].ErrorFrame?
    ensures UpstreamErrorEvent in s.log[..i] && DoneFrame !in s.log
  {
    ErrorFrameReported(cfg, run, s, i);
    FramesWritten(cfg, run, s);
  }

  lemma ErrorFrameReported(cfg: Config, run: seq<Label>, s: State, i: nat)
    requires Reached(cfg, run, s) && i < |s.log| && s.log[i].ErrorFrame?
    ensures UpstreamErrorEvent in s.log[..i] && !ErrorFree(s.received)
  {
    LogInvariant(cfg, run, s);
    ErrorFrameMeansError(s, i);
  }

  /** At every moment at most one terminal event and one usage commit have happened, the commit
      first.  In a final state exactly one terminal event has: `request.failed` if an error chunk
      went through, else `request.completed` with the last usage seen. */
  lemma OneTerminalEvent(cfg: Config, run: seq<Label>, s: State)
    requires Reached(cfg, run, s)
    ensures |Only(IsTerminal, s.log)| <= 1 && |Only(IsCommit, s.log)| <= 1 && CommitsFirst(s)
    ensures Final(s) ==>
              Only(IsTerminal, s.log)
              == [if ErrorFree(s.received) then CompletedEvent(LastUsage(NO_USAGE, s.received)) else FailedEvent]
  {
    LogInvariant(cfg, run, s);
    if Final(s) {
      Settled(cfg, s);
    }
  }

  /** `[DONE]` means that every reply reached the client and the plugin had signalled the end of its
      stream, unless the forwarder dropped a chunk; it can only do so once the request context has
      ended, and what the client got is then a prefix of the replies. */
  lemma DoneMeansComplete(cfg: Config, run: seq<Label>, s: State)
    requires Reached(cfg, run, s) && DoneFrame in s.log
    ensures s.dropped == [] ==> s.received == cfg.replies && cfg.ending.Eof?
    ensures s.dropped != [] ==> s.ctxDone && s.received <= cfg.replies
  {
    FramesWritten(cfg, run, s);
    LogInvariant(cfg, run, s);
    NothingHeld(cfg, s);
    SplitReceived(s.received, s.dropped, cfg.replies[..s.next], s.synthetic);
  }

  lemma NothingHeld(cfg: Config, s: State)
    requires Inv(cfg, s) && s.relay.RelayGone?
    ensures Leaving(s.forwarder)
    ensures s.next <= |cfg.replies| && s.received + s.dropped == cfg.replies[..s.next] + s.synthetic
  {
    assert s.received + RelayHeld(s) + ForwarderHeld(s) + s.dropped == s.received + s.dropped;
  }

  lemma SplitReceived(received: seq<ResponseChunk>, dropped: seq<ResponseChunk>,
                      replies: seq<ResponseChunk>, synthetic: seq<ResponseChunk>)
    requires received + dropped == replies + synthetic && |dropped| <= 1 && |synthetic| <= 1
    requires ErrorFree(received) && (synthetic != [] ==> synthetic[0].error.Some?)
    ensures dropped == [] ==> synthetic == []
    ensures dropped == [] ==> received == replies
    ensures received <= replies
  {
    var all := replies + synthetic;
    assert received == all[..|received|] && replies == all[..|replies|];
    if synthetic != [] {
      assert all[|replies|] == synthetic[0];
    }
  }

  // ---------------------------------------------------------------- what a cancelled stream may look like

  /** The first `k` replies are with the writer, and the forwarder is about to call again. */
  predicate Midway(cfg: Config, s: State, k: nat)
    requires k <= |cfg.replies|
  {
    && s.forwarder.Calling? && s.relay.Receiving? && !s.ctxDone && !s.outClosed
    && (s.writer.Reading? <==> ErrorFree(s.received))
    && s.next == k && s.received == cfg.replies[..k]
  }

  lemma {:induction false} DeliverFirst(cfg: Config, k: nat) returns (run: seq<Label>, s: State)
    requires k <= |cfg.replies| && ErrorOnlyLast(cfg.replies[..k])
    ensures Reached(cfg, run, s) && Midway(cfg, s, k)
    decreases k
  {
    if k == 0 {
      run, s := [], INIT;
    } else {
      assert forall i :: 0 <= i < k - 1 ==> cfg.replies[..k - 1][i] == cfg.replies[..k][i];
      run, s := DeliverFirst(cfg, k - 1);
      run, s := DeliverNext(cfg, run, s, k - 1);
    }
  }

  lemma DeliverNext(cfg: Config, run: seq<Label>, s: State, k: nat) returns (run': seq<Label>, t: State)
    requires k < |cfg.replies| && Reached(cfg, run, s) && Midway(cfg, s, k) && ErrorFree(cfg.replies[..k])
    ensures Reached(cfg, run', t) && Midway(cfg, t, k + 1)
  {
    run', t := FetchNext(cfg, run, s, k);
    run', t := PassOn(cfg, run', t);
    assert cfg.replies[..k + 1] == cfg.replies[..k] + [cfg.replies[k]];
    ErrorFreeSnoc(cfg.replies[..k], cfg.replies[k]);
  }

  lemma PassOn(cfg: Config, run: seq<Label>, s: State) returns (run': seq<Label>, t: State)
    requires Reached(cfg, run, s) && s.relay.Absorbing? && s.writer.Reading?
    ensures Reached(cfg, run', t) && t.received == s.received + [s.relay.got]
    ensures t.relay.Receiving? && t.forwarder == s.forwarder && t.next == s.next
    ensures t.writer.Reading? <==> s.relay.got.error.None?
    ensures t.ctxDone == s.ctxDone && t.outClosed == s.outClosed
  {
    run', t := Then(cfg, run, s, Absorb);
    run', t := Then(cfg, run', t, Deliver);
  }

  lemma FetchNext(cfg: Config, run: seq<Label>, s: State, k: nat) returns (run': seq<Label>, t: State)
    requires k < |cfg.replies| && Reached(cfg, run, s) && Midway(cfg, s, k)
    ensures Reached(cfg, run', t)
    ensures t == s.(next := k + 1, relay := Absorbing(cfg.replies[k]))
  {
    run', t := Then(cfg, run, s, Reply);
    run', t := Then(cfg, run', t, HandOver);
  }

  /** The forwarder gives up, or finishes, with nothing more for the relay. */
  lemma LeaveMidway(cfg: Config, run: seq<Label>, s: State, k: nat) returns (run': seq<Label>, t: State)
    requires k <= |cfg.replies| && Reached(cfg, run, s) && Midway(cfg, s, k)
    ensures Reached(cfg, run', t) && t.forwarder.SignallingDone? && t.relay.Receiving?
    ensures t.received == s.received && t.writer == s.writer
  {
    if k == |cfg.replies| && cfg.ending.Eof? {
      run', t := Then(cfg, run, s, ReplyEof);
    } else {
      run', t := Then(cfg, run, s, if k < |cfg.replies| then Reply else CallError(cfg.ending.message));
      run', t := Then(cfg, run', t, ContextDone);
      run', t := Then(cfg, run', t, Abandon);
    }
  }

  lemma FinishForwarder(cfg: Config, run: seq<Label>, s: State) returns (run': seq<Label>, t: State)
    requires Reached(cfg, run, s) && s.forwarder.SignallingDone? && s.relay.Receiving?
    ensures Reached(cfg, run', t) && t.relay.Settling? && t.received == s.received && t.writer == s.writer
  {
    run', t := Then(cfg, run, s, SignalDone);
    run', t := Then(cfg, run', t, CloseCh);
    run', t := Then(cfg, run', t, SeeClosed);
  }

  lemma FinishRelay(cfg: Config, run: seq<Label>, s: State) returns (run': seq<Label>, t: State)
    requires Reached(cfg, run, s) && s.relay.Settling?
    ensures Reached(cfg, run', t) && t.relay.RelayGone? && t.outClosed
    ensures t.received == s.received && t.writer == s.writer
  {
    run', t := Then(cfg, run, s, Settle);
    run', t := Then(cfg, run', t, Report);
    run', t := Then(cfg, run', t, CloseOut);
  }

  /** Wherever the first error has not been passed, the stream may break off, and the relay then
      settles for what the writer has received. */
  lemma BreakOff(cfg: Config, k: nat) returns (run: seq<Label>, s: State)
    requires k <= |cfg.replies| && ErrorOnlyLast(cfg.replies[..k])
    ensures Reached(cfg, run, s) && s.relay.RelayGone? && s.outClosed && s.received == cfg.replies[..k]
    ensures s.writer.Reading? <==> ErrorFree(s.received)
  {
    run, s := DeliverFirst(cfg, k);
    run, s := LeaveMidway(cfg, run, s, k);
    run, s := FinishForwarder(cfg, run, s);
    run, s := FinishRelay(cfg, run, s);
  }

  /** A cancelled stream may look complete, wherever it breaks off: after every error-free prefix of
      the replies there is a run in which the client gets that prefix and then `[DONE]`. */
  lemma CancelledStreamMayLookComplete(cfg: Config, k: nat) returns (run: seq<Label>, s: State)
    requires k <= |cfg.replies| && ErrorFree(cfg.replies[..k])
    ensures Reached(cfg, run, s) && s.received == cfg.replies[..k] && DoneFrame in s.log
  {
    run, s := BreakOff(cfg, k);
    run, s := Then(cfg, run, s, WriterEnds);
    assert s.log[|s.log| - 1] == DoneFrame;
  }

  /** The client may get `received` and then `[DONE]`. */
  ghost predicate MayBeDone(cfg: Config, received: seq<ResponseChunk>) {
    exists run, s :: Reached(cfg, run, s) && DoneFrame in s.log && s.received == received
  }

  /** What `[DONE]` may follow: exactly the error-free prefixes of the replies. */
  lemma DoneFollowsPrefixes(cfg: Config, received: seq<ResponseChunk>)
    ensures MayBeDone(cfg, received) <==> received <= cfg.replies && ErrorFree(received)
  {
    if MayBeDone(cfg, received) {
      var run, s :| Reached(cfg, run, s) && DoneFrame in s.log && s.received == received;
      DoneMeansComplete(cfg, run, s);
      FramesWritten(cfg, run, s);
    }
    if received <= cfg.replies && ErrorFree(received) {
      assert received == cfg.replies[..|received|];
      var run, s := CancelledStreamMayLookComplete(cfg, |received|);
    }
  }

  /** `[DONE]` always means that the client has every reply and that the plugin had ended its stream. */
  ghost predicate DoneIsComplete(cfg: Config) {
    forall run, s :: Reached(cfg, run, s) && DoneFrame in s.log ==> s.received == cfg.replies && cfg.ending.Eof?
  }

  /** When the context may end, that holds if and only if the plugin sends nothing at all and ends
      its stream. */
  lemma DoneIsCompleteExactly(cfg: Config)
    ensures DoneIsComplete(cfg) <==> cfg.replies == [] && cfg.ending.Eof?
  {
    DoneFollowsPrefixes(cfg, []);
    if cfg.replies == [] && cfg.ending.Eof? {
      forall run, s | Reached(cfg, run, s) && DoneFrame in s.log ensures s.received == cfg.replies {
        DoneMeansComplete(cfg, run, s);
      }
    } else {
      var run, s :| Reached(cfg, run, s) && DoneFrame in s.log && s.received == [];
    }
  }
}
