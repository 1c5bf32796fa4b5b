/** The queue at work (internal/observability/queue.go): any number of producers calling `Enqueue`
    against the one goroutine that runs `run`, in every interleaving.  Taking a batch and enqueueing
    hold the lock and are single steps; so is each observer's `Emit`. */
module QueueRun {
  import opened QueueModel

  datatype Runner<E> = Waiting | Flushing(last: bool) | Emitting(batch: seq<E>, next: nat, last: bool) | Exited

  /** `closedAt` is the number of events accepted before `close(q.closed)`; `batches` are the non-empty
      batches taken so far. */
  datatype State<E> = State(history: History<E>, runner: Runner<E>, closed: bool, closedAt: nat, done: bool,
                            batches: seq<seq<E>>, delivered: seq<seq<seq<E>>>)

  datatype Label<E> = Produce(event: E) | CloseQueue | Tick | SeeClosed | TakeOne | Emit(succeeds: bool) | EmitDone

  function Init<E>(observers: nat): State<E> {
    State(History([], []), Waiting, false, 0, false, [], seq(observers, _ => []))
  }

  /** When the ticker and `closed` are both ready, `select` may take either. */
  predicate Enabled<E>(s: State<E>, l: Label<E>) {
    match l
    case Produce(_) => true
    case CloseQueue => !s.closed
    case Tick => s.runner.Waiting?
    case SeeClosed => s.runner.Waiting? && s.closed
    case TakeOne => s.runner.Flushing?
    case Emit(_) => s.runner.Emitting? && s.runner.next < |s.delivered|
    case EmitDone => s.runner.Emitting? && s.runner.next >= |s.delivered|
  }

  function Step<E>(k: Limits, s: State<E>, l: Label<E>): State<E>
    requires k.Valid() && s.history.Valid(k) && Enabled(s, l)
  {
    match l
    case Produce(e) => s.(history := Enqueue(k, s.history, e).0)
    case CloseQueue => s.(closed := true, closedAt := |s.history.accepted|)
    case Tick => s.(runner := Flushing(false))
    case SeeClosed => s.(runner := Flushing(true))
    case TakeOne =>
      var b := Batch(k, s.history);
      var h := TakeBatch(k, s.history);
      if b != [] then s.(history := h, runner := Emitting(b, 0, s.runner.last), batches := s.batches + [b])
      else if s.runner.last then s.(history := h, runner := Exited, done := true)
      else s.(history := h, runner := Waiting)
    case Emit(_) =>
      var i := s.runner.next;
      s.(runner := s.runner.(next := i + 1), delivered := s.delivered[i := s.delivered[i] + [s.runner.batch]])
    case EmitDone => s.(runner := Flushing(s.runner.last))
  }

  lemma StepValid<E>(k: Limits, s: State<E>, l: Label<E>)
    requires k.Valid() && s.history.Valid(k) && Enabled(s, l)
    ensures Step(k, s, l).history.Valid(k)
  {
    TakeBatchTakes(k, s.history);
  }

  predicate CanRun<E>(k: Limits, s: State<E>, run: seq<Label<E>>)
    requires k.Valid() && s.history.Valid(k)
    decreases |run|
  {
    run == [] || (Enabled(s, run[0]) && (StepValid(k, s, run[0]); CanRun(k, Step(k, s, run[0]), run[1..])))
  }

  function After<E>(k: Limits, s: State<E>, run: seq<Label<E>>): State<E>
    requires k.Valid() && s.history.Valid(k) && CanRun(k, s, run)
    decreases |run|
  {
    if run == [] then s else StepValid(k, s, run[0]); After(k, Step(k, s, run[0]), run[1..])
  }

  // ---------------------------------------------------------------- what every step keeps

  /** What observer `i` has been given: all batches, or all but the one being emitted. */
  function Given<E>(s: State<E>, i: nat): seq<seq<E>> {
    if s.runner.Emitting? && i >= s.runner.next && s.batches != [] then s.batches[..|s.batches| - 1] else s.batches
  }

  predicate Leaving<E>(r: Runner<E>) {
    r.Exited? || ((r.Flushing? || r.Emitting?) && r.last)
  }

  ghost predicate Inv<E>(k: Limits, s: State<E>) {
    && k.Valid() && s.history.Valid(k)
    && Concat(s.batches) == Left(s.history, Taken)
    && (s.runner.Emitting? ==> s.batches != [] && s.batches[|s.batches| - 1] == s.runner.batch)
    && (forall i :: 0 <= i < |s.delivered| ==> s.delivered[i] == Given(s, i))
    && s.closedAt <= |s.history.accepted| && (Leaving(s.runner) ==> s.closed)
    && (s.done <==> s.runner.Exited?) && (s.done ==> s.closedAt <= |s.history.fates|)
  }

  lemma InvTake<E>(k: Limits, s: State<E>)
    requires Inv(k, s) && s.runner.Flushing?
    ensures Inv(k, Step(k, s, TakeOne))
  {
    TakeBatchTakes(k, s.history);
    var b := Batch(k, s.history);
    var t := Step(k, s, TakeOne);
    assert t.history == TakeBatch(k, s.history) && t.delivered == s.delivered;
    if b == [] {
      assert Left(t.history, Taken) == Left(s.history, Taken);
      assert t.batches == s.batches;
    } else {
      ConcatAppend(s.batches, [b]);
      ConcatOne(b);
      assert t.batches[..|s.batches|] == s.batches;
      forall i | 0 <= i < |t.delivered| ensures t.delivered[i] == Given(t, i) {
        assert t.delivered[i] == Given(s, i) == s.batches;
      }
    }
  }

  lemma ConcatOne<E>(b: seq<E>)
    ensures Concat([b]) == b
  {
    assert Concat([b]) == b + Concat([]);
  }

  lemma InvEmit<E>(k: Limits, s: State<E>, ok: bool)
    requires Inv(k, s) && Enabled(s, Emit(ok))
    ensures Inv(k, Step(k, s, Emit(ok)))
  {
    var n := |s.batches| - 1;
    assert s.batches == s.batches[..n] + [s.runner.batch];
  }

  lemma InvStep<E>(k: Limits, s: State<E>, l: Label<E>)
    requires Inv(k, s) && Enabled(s, l)
    ensures Inv(k, Step(k, s, l))
  {
    match l
    case Produce(e) => EnqueueLoss(k, s.history, e);
    case TakeOne => InvTake(k, s);
    case Emit(ok) => InvEmit(k, s, ok);
    case _ =>
  }

  lemma {:induction false} InvAlong<E>(k: Limits, s: State<E>, run: seq<Label<E>>)
    requires Inv(k, s) && CanRun(k, s, run)
    ensures Inv(k, After(k, s, run))
    decreases |run|
  {
    if run != [] {
      InvStep(k, s, run[0]);
      InvAlong(k, Step(k, s, run[0]), run[1..]);
    }
  }

  ghost predicate Reached<E>(k: Limits, observers: nat, run: seq<Label<E>>, s: State<E>)
    requires k.Valid()
  {
    CanRun(k, Init(observers), run) && After(k, Init(observers), run) == s
  }

  lemma Invariant<E>(k: Limits, observers: nat, run: seq<Label<E>>, s: State<E>)
    requires k.Valid() && Reached(k, observers, run, s)
    ensures Inv(k, s) && |s.delivered| == observers
  {
    InvAlong(k, Init(observers), run);
    ObserverCount(k, Init(observers), run);
  }

  lemma {:induction false} ObserverCount<E>(k: Limits, s: State<E>, run: seq<Label<E>>)
    requires Inv(k, s) && CanRun(k, s, run)
    ensures |After(k, s, run).delivered| == |s.delivered|
    decreases |run|
  {
    if run != [] {
      InvStep(k, s, run[0]);
      ObserverCount(k, Step(k, s, run[0]), run[1..]);
    }
  }

  // ---------------------------------------------------------------- what follows

  /** All observers get the same batches in the same order, failing or not, a later observer at most
      one batch behind an earlier one; strung together they are a prefix of the events taken. */
  lemma ObserversAgree<E>(k: Limits, observers: nat, run: seq<Label<E>>, s: State<E>, i: nat, j: nat)
    requires k.Valid() && Reached(k, observers, run, s) && i <= j < observers
    ensures |s.delivered| == observers && |s.history.fates| <= |s.history.accepted|
    ensures s.delivered[j] <= s.delivered[i] && |s.delivered[i]| <= |s.delivered[j]| + 1
    ensures Concat(s.delivered[i]) <= Left(s.history, Taken)
  {
    Invariant(k, observers, run, s);
    var n := |s.delivered[i]|;
    assert s.batches == s.batches[..n] + s.batches[n..] && s.delivered[i] == s.batches[..n];
    ConcatAppend(s.batches[..n], s.batches[n..]);
  }

  /** Shutdown drains: once `done` is closed, every event accepted before `close(q.closed)` has left the
      queue, and each of them that was not evicted has been given to every observer, in order. */
  lemma ShutdownDrains<E>(k: Limits, observers: nat, run: seq<Label<E>>, s: State<E>, p: nat, i: nat)
    requires k.Valid() && Reached(k, observers, run, s) && s.done && p < s.closedAt && i < observers
    ensures p < |s.history.fates| <= |s.history.accepted| && |s.delivered| == observers
    ensures s.history.fates[p] == Taken ==>
              exists n :: 0 <= n < |Concat(s.delivered[i])| == |Positions(s.history.fates, Taken)|
                && Positions(s.history.fates, Taken)[n] == p && Concat(s.delivered[i])[n] == s.history.accepted[p]
  {
    Invariant(k, observers, run, s);
    LeftAtPositions(s.history, Taken);
    if s.history.fates[p] == Taken {
      PositionsComplete(s.history.fates, Taken, p);
      var n :| 0 <= n < |Positions(s.history.fates, Taken)| && Positions(s.history.fates, Taken)[n] == p;
      assert Concat(s.delivered[i])[n] == s.history.accepted[p];
    }
  }

  lemma {:induction false} ClosedAtKept<E>(k: Limits, s: State<E>, run: seq<Label<E>>)
    requires Inv(k, s) && CanRun(k, s, run) && s.closed
    ensures After(k, s, run).closed && After(k, s, run).closedAt == s.closedAt
    decreases |run|
  {
    if run != [] {
      InvStep(k, s, run[0]);
      ClosedAtKept(k, Step(k, s, run[0]), run[1..]);
    }
  }

  /** `closedAt` is what it says: in every run that closes the queue in state `s`, it is from then on
      the number of events that had been accepted by then. */
  lemma ClosedAtMeans<E>(k: Limits, s: State<E>, run: seq<Label<E>>)
    requires Inv(k, s) && run != [] && CanRun(k, s, run) && run[0].CloseQueue?
    ensures After(k, s, run).closedAt == |s.history.accepted|
  {
    InvStep(k, s, run[0]);
    ClosedAtKept(k, Step(k, s, run[0]), run[1..]);
  }

  /** The queue operations of a run, in order. */
  function OpsOf<E>(run: seq<Label<E>>): seq<Op<E>>
    decreases |run|
  {
    if run == [] then []
    else
      (match run[0] case Produce(e) => [Put(e)] case TakeOne => [Take] case _ => [])
      + OpsOf(run[1..])
  }

  /** The interleaved system refines the plain sequence of its queue operations. */
  lemma {:induction false} RunRefinesOps<E>(k: Limits, s: State<E>, run: seq<Label<E>>)
    requires Inv(k, s) && CanRun(k, s, run)
    ensures After(k, s, run).history == ApplyAll(k, s.history, OpsOf(run))
    decreases |run|
  {
    if run != [] {
      InvStep(k, s, run[0]);
      var rest := OpsOf(run[1..]);
      assert [Take] + rest != [] && ([Take] + rest)[1..] == rest;
      if run[0].Produce? {
        assert ([Put(run[0].event)] + rest)[1..] == rest;
      } else if !run[0].TakeOne? {
        assert [] + rest == rest;
      }
      RunRefinesOps(k, Step(k, s, run[0]), run[1..]);
    }
  }

  /** Over any run in which at most `capacity` events are accepted between two takes that find the
      queue empty, no event is lost: all that was accepted is taken or still queued. */
  lemma PacedRunLosesNothing<E>(k: Limits, observers: nat, run: seq<Label<E>>, s: State<E>)
    requires k.Valid() && Reached(k, observers, run, s) && Paced(k, History([], []), OpsOf(run), 0)
    ensures |s.history.fates| <= |s.history.accepted| && Left(s.history, Evicted) == []
    ensures |Left(s.history, Taken)| + |s.history.Contents()| == |s.history.accepted|
  {
    Invariant(k, observers, run, s);
    var init: State<E> := Init(observers);
    RunRefinesOps(k, init, run);
    PacedLosesNothing(k, init.history, OpsOf(run), 0);
    Conservation(s.history);
  }

  /** How far the runner is from its next look at the queue. */
  function Phase<E>(s: State<E>): nat {
    match s.runner
    case Emitting(_, next, _) => (if next < |s.delivered| then |s.delivered| - next else 0) + 2
    case Flushing(_) => 1
    case _ => 0
  }

  /** An upper bound on the steps the runner still has to take: for each queued event at most one look
      at the queue, one `Emit` per observer and the end of the round. */
  function DrainMeasure<E>(s: State<E>): nat
    requires |s.history.fates| <= |s.history.accepted|
  {
    Rounds(|s.history.Contents()|, |s.delivered|) + Phase(s)
  }

  function Rounds(events: nat, observers: nat): nat {
    if events == 0 then 0 else Rounds(events - 1, observers) + observers + 2
  }

  lemma {:induction false} RoundsShrink(fewer: nat, events: nat, observers: nat)
    requires fewer < events
    ensures Rounds(fewer, observers) + observers + 2 <= Rounds(events, observers)
  {
    if fewer < events - 1 {
      RoundsShrink(fewer, events - 1, observers);
    }
  }

  /** The runner is on its way out, and if it is out, it left nothing behind. */
  ghost predicate Draining<E>(k: Limits, s: State<E>) {
    Inv(k, s) && Leaving(s.runner) && (s.runner.Exited? ==> s.history.Contents() == [])
  }

  lemma DrainTake<E>(k: Limits, s: State<E>)
    requires Draining(k, s) && s.runner.Flushing?
    ensures Draining(k, Step(k, s, TakeOne)) && DrainMeasure(Step(k, s, TakeOne)) < DrainMeasure(s)
  {
    InvTake(k, s);
    TakeBatchTakes(k, s.history);
    var s' := Step(k, s, TakeOne);
    if Batch(k, s.history) != [] {
      RoundsShrink(|s'.history.Contents()|, |s.history.Contents()|, |s.delivered|);
    }
  }

  lemma DrainStep<E>(k: Limits, s: State<E>, l: Label<E>)
    requires Draining(k, s) && Enabled(s, l) && !l.Produce?
    ensures Draining(k, Step(k, s, l)) && DrainMeasure(Step(k, s, l)) < DrainMeasure(s)
  {
    match l
    case TakeOne => DrainTake(k, s);
    case Emit(ok) => InvEmit(k, s, ok);
    case EmitDone => InvStep(k, s, l);
  }

  predicate NoProducer<E>(run: seq<Label<E>>) {
    forall i :: 0 <= i < |run| ==> !run[i].Produce?
  }

  /** The runner cannot take another step. */
  ghost predicate RunnerStuck<E(!new)>(s: State<E>) {
    forall l: Label<E> :: Enabled(s, l) ==> l.Produce?
  }

  lemma StuckMeansExited<E(!new)>(k: Limits, s: State<E>)
    requires Draining(k, s) && RunnerStuck(s)
    ensures s.runner.Exited?
  {
    assert !Enabled(s, TakeOne) && !Enabled(s, Emit(true)) && !Enabled(s, EmitDone);
  }

  lemma {:induction false} DrainAlong<E>(k: Limits, s: State<E>, run: seq<Label<E>>)
    requires Draining(k, s) && CanRun(k, s, run) && NoProducer(run)
    ensures Draining(k, After(k, s, run)) && |run| + DrainMeasure(After(k, s, run)) <= DrainMeasure(s)
    decreases |run|
  {
    if run != [] {
      DrainStep(k, s, run[0]);
      DrainAlong(k, Step(k, s, run[0]), run[1..]);
    }
  }

  /** Shutdown ends: once the runner has seen `closed` and no event comes in any more, every run is
      bounded, and where it cannot be continued `done` is closed, the queue is empty, and every
      observer has been given everything that was taken. */
  lemma DrainEnds<E(!new)>(k: Limits, s: State<E>, run: seq<Label<E>>)
    requires Draining(k, s) && CanRun(k, s, run) && NoProducer(run)
    ensures |run| <= DrainMeasure(s)
    ensures var t := After(k, s, run);
            RunnerStuck(t) ==>
              && t.done && |t.history.fates| == |t.history.accepted|
              && forall i :: 0 <= i < |t.delivered| ==> Concat(t.delivered[i]) == Left(t.history, Taken)
  {
    DrainAlong(k, s, run);
    var t := After(k, s, run);
    if RunnerStuck(t) {
      StuckMeansExited(k, t);
    }
  }

  /** Every run that has seen `closed` is on its way out in that sense. */
  lemma LeavingIsDraining<E>(k: Limits, observers: nat, run: seq<Label<E>>, s: State<E>)
    requires k.Valid() && Reached(k, observers, run, s) && Leaving(s.runner) && !s.runner.Exited?
    ensures Draining(k, s)
  {
    Invariant(k, observers, run, s);
  }
}
