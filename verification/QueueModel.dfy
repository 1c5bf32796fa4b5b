/** What the observer queue (internal/observability/queue.go) is, as a value: the events accepted so
    far in order, and for each that has left the queue how it left.  The queue itself holds the rest. */
module QueueModel {
  import opened Sequences

  datatype Fate = Taken | Evicted

  /** `capacity` and `batch` are positive; `rejects` under the overflow policies "block" and "fail". */
  datatype Limits = Limits(capacity: nat, batch: nat, rejects: bool) {
    predicate Valid() { capacity > 0 && batch > 0 }
  }

  datatype History<E> = History(accepted: seq<E>, fates: seq<Fate>) {
    predicate Valid(l: Limits) {
      |fates| <= |accepted| && |accepted| - |fates| <= l.capacity
    }

    function Contents(): seq<E>
      requires |fates| <= |accepted|
    {
      accepted[|fates|..]
    }
  }

  function Min(a: nat, b: nat): nat { if a < b then a else b }

  function Same(f: Fate, n: nat): seq<Fate> { seq(n, _ => f) }

  /** One `Enqueue`: the new history and the answer. */
  function Enqueue<E>(l: Limits, h: History<E>, e: E): (History<E>, bool)
    requires l.Valid() && h.Valid(l)
  {
    if |h.Contents()| < l.capacity then (h.(accepted := h.accepted + [e]), true)
    else if l.rejects then (h, false)
    else (History(h.accepted + [e], h.fates + [Evicted]), true)
  }

  /** The next batch, empty only when the queue is. */
  function Batch<E>(l: Limits, h: History<E>): seq<E>
    requires l.Valid() && h.Valid(l)
  {
    h.Contents()[..Min(l.batch, |h.Contents()|)]
  }

  /** One `takeBatch`. */
  function TakeBatch<E>(l: Limits, h: History<E>): History<E>
    requires l.Valid() && h.Valid(l)
  {
    h.(fates := h.fates + Same(Taken, |Batch(l, h)|))
  }

  /** The positions, among the accepted events, of those that left by fate `f`. */
  function Positions(fates: seq<Fate>, f: Fate): seq<nat>
    decreases |fates|
  {
    if fates == [] then []
    else
      var n := |fates| - 1;
      Positions(fates[..n], f) + if fates[n] == f then [n] else []
  }

  /** The events at those positions. */
  function Left<E>(h: History<E>, f: Fate): seq<E>
    requires |h.fates| <= |h.accepted|
    decreases |h.fates|
  {
    if h.fates == [] then []
    else
      var n := |h.fates| - 1;
      Left(History(h.accepted, h.fates[..n]), f) + if h.fates[n] == f then [h.accepted[n]] else []
  }

  /** `Positions` is what it says: positions of the fate, in increasing order, all of them. */
  lemma {:induction false} PositionsMeaning(fates: seq<Fate>, f: Fate)
    ensures forall i :: 0 <= i < |Positions(fates, f)| ==>
              Positions(fates, f)[i] < |fates| && fates[Positions(fates, f)[i]] == f
    ensures forall i, j :: 0 <= i < j < |Positions(fates, f)| ==> Positions(fates, f)[i] < Positions(fates, f)[j]
    decreases |fates|
  {
    if fates != [] {
      PositionsMeaning(fates[..|fates| - 1], f);
    }
  }

  lemma {:induction false} PositionsComplete(fates: seq<Fate>, f: Fate, k: nat)
    requires k < |fates| && fates[k] == f
    ensures k in Positions(fates, f)
    decreases |fates|
  {
    var n := |fates| - 1;
    if k < n {
      PositionsComplete(fates[..n], f, k);
    }
  }

  /** Events that left are an order-preserving, duplicate-free subsequence of the accepted ones: the
      events found at strictly increasing positions. */
  lemma {:induction false} LeftAtPositions<E>(h: History<E>, f: Fate)
    requires |h.fates| <= |h.accepted|
    ensures |Left(h, f)| == |Positions(h.fates, f)|
    ensures forall i :: 0 <= i < |Left(h, f)| ==>
              Positions(h.fates, f)[i] < |h.accepted| && Left(h, f)[i] == h.accepted[Positions(h.fates, f)[i]]
    decreases |h.fates|
  {
    PositionsMeaning(h.fates, f);
    if h.fates != [] {
      LeftAtPositions(History(h.accepted, h.fates[..|h.fates| - 1]), f);
    }
  }

  /** Conservation: every accepted event was taken, was evicted, or is still queued. */
  lemma {:induction false} Conservation<E>(h: History<E>)
    requires |h.fates| <= |h.accepted|
    ensures |h.accepted| == |Left(h, Taken)| + |Left(h, Evicted)| + |h.Contents()|
    decreases |h.fates|
  {
    if h.fates != [] {
      Conservation(History(h.accepted, h.fates[..|h.fates| - 1]));
    }
  }

  lemma LeftOne<E>(h: History<E>, f: Fate, g: Fate)
    requires |h.fates| < |h.accepted|
    ensures Left(History(h.accepted, h.fates + [g]), f) == Left(h, f) + if f == g then [h.accepted[|h.fates|]] else []
  {
    assert (h.fates + [g])[..|h.fates|] == h.fates;
  }

  lemma SameMore(fates: seq<Fate>, f: Fate, n: nat)
    requires n > 0
    ensures fates + Same(f, n) == fates + Same(f, n - 1) + [f]
  {
    assert Same(f, n) == Same(f, n - 1) + [f];
  }

  /** What leaves by fate `f` when the next `n` events leave by fate `g`. */
  function Next<E>(h: History<E>, f: Fate, n: nat, g: Fate): seq<E>
    requires |h.fates| + n <= |h.accepted|
  {
    if f == g then h.accepted[|h.fates|..|h.fates| + n] else []
  }

  lemma NextMore<E>(h: History<E>, f: Fate, n: nat, g: Fate)
    requires 0 < n && |h.fates| + n <= |h.accepted|
    ensures Next(h, f, n, g) == Next(h, f, n - 1, g) + if f == g then [h.accepted[|h.fates| + n - 1]] else []
  {
  }

  lemma {:induction false} LeftExtend<E>(h: History<E>, f: Fate, n: nat, g: Fate)
    requires |h.fates| + n <= |h.accepted|
    ensures Left(History(h.accepted, h.fates + Same(g, n)), f) == Left(h, f) + Next(h, f, n, g)
    decreases n
  {
    if n == 0 {
      assert h.fates + Same(g, 0) == h.fates && Left(h, f) + [] == Left(h, f);
    } else {
      LeftExtend(h, f, n - 1, g);
      LeftOne(History(h.accepted, h.fates + Same(g, n - 1)), f, g);
      SameMore(h.fates, g, n);
      NextMore(h, f, n, g);
      var e := if f == g then [h.accepted[|h.fates| + n - 1]] else [];
      Associative(Left(h, f), Next(h, f, n - 1, g), e);
    }
  }

  lemma {:induction false} LeftAcceptMore<E>(h: History<E>, more: seq<E>, f: Fate)
    requires |h.fates| <= |h.accepted|
    ensures Left(History(h.accepted + more, h.fates), f) == Left(h, f)
    decreases |h.fates|
  {
    if h.fates != [] {
      LeftAcceptMore(History(h.accepted, h.fates[..|h.fates| - 1]), more, f);
    }
  }

  /** A batch goes to the end of what was taken, and nothing else of the history changes. */
  lemma TakeBatchTakes<E>(l: Limits, h: History<E>)
    requires l.Valid() && h.Valid(l)
    ensures Left(TakeBatch(l, h), Taken) == Left(h, Taken) + Batch(l, h)
    ensures Left(TakeBatch(l, h), Evicted) == Left(h, Evicted)
    ensures Batch(l, h) + TakeBatch(l, h).Contents() == h.Contents() && TakeBatch(l, h).Valid(l)
    ensures Batch(l, h) == [] <==> h.Contents() == []
    ensures |Batch(l, h)| == if |h.Contents()| < l.batch then |h.Contents()| else l.batch
  {
    var n := |Batch(l, h)|;
    LeftExtend(h, Taken, n, Taken);
    LeftExtend(h, Evicted, n, Taken);
  }

  /** An accepted event goes to the end of the queue; one is lost only from a full queue that drops,
      it is then the oldest, number k, and the new event is number k + capacity. */
  lemma EnqueueLoss<E>(l: Limits, h: History<E>, e: E)
    requires l.Valid() && h.Valid(l)
    ensures var (h', ok) := Enqueue(l, h, e);
            var k := |h.fates|;
            && h'.Valid(l)
            && Left(h', Taken) == Left(h, Taken)
            && (ok <==> h'.accepted == h.accepted + [e])
            && (!ok <==> l.rejects && |h.Contents()| == l.capacity) && (!ok ==> h' == h)
            && (Left(h', Evicted) != Left(h, Evicted) <==> !l.rejects && |h.Contents()| == l.capacity)
            && (Left(h', Evicted) != Left(h, Evicted) ==>
                  && h'.fates == h.fates + [Evicted] && Left(h', Evicted) == Left(h, Evicted) + [h.accepted[k]]
                  && |h.accepted| == k + l.capacity && h'.accepted[k + l.capacity] == e)
  {
    LeftAcceptMore(h, [e], Taken);
    LeftAcceptMore(h, [e], Evicted);
    LeftExtend(History(h.accepted + [e], h.fates), Taken, 1, Evicted);
    LeftExtend(History(h.accepted + [e], h.fates), Evicted, 1, Evicted);
    assert Same(Evicted, 1) == [Evicted];
  }

  // ---------------------------------------------------------------- any sequence of operations

  datatype Op<E> = Put(event: E) | Take

  function Apply<E>(l: Limits, h: History<E>, op: Op<E>): (h': History<E>)
    requires l.Valid() && h.Valid(l)
    ensures h'.Valid(l)
  {
    match op
    case Put(e) => Enqueue(l, h, e).0
    case Take => TakeBatch(l, h)
  }

  function ApplyAll<E>(l: Limits, h: History<E>, ops: seq<Op<E>>): (h': History<E>)
    requires l.Valid() && h.Valid(l)
    ensures h'.Valid(l)
    decreases |ops|
  {
    if ops == [] then h else ApplyAll(l, Apply(l, h, ops[0]), ops[1..])
  }

  /** Counting from `since`, at most `capacity` events are accepted between two takes that find the
      queue empty. */
  ghost predicate Paced<E>(l: Limits, h: History<E>, ops: seq<Op<E>>, since: nat)
    requires l.Valid() && h.Valid(l)
    decreases |ops|
  {
    ops == [] ||
    var h' := Apply(l, h, ops[0]);
    if ops[0].Take? then Paced(l, h', ops[1..], if h.Contents() == [] then 0 else since)
    else if h'.accepted == h.accepted then Paced(l, h', ops[1..], since)
    else since < l.capacity && Paced(l, h', ops[1..], since + 1)
  }

  /** Under that pace no event is ever lost. */
  lemma {:induction false} PacedLosesNothing<E>(l: Limits, h: History<E>, ops: seq<Op<E>>, since: nat)
    requires l.Valid() && h.Valid(l) && Paced(l, h, ops, since) && |h.Contents()| <= since
    ensures Left(ApplyAll(l, h, ops), Evicted) == Left(h, Evicted)
    decreases |ops|
  {
    if ops != [] {
      var h' := Apply(l, h, ops[0]);
      match ops[0] {
        case Take =>
          TakeBatchTakes(l, h);
          PacedLosesNothing(l, h', ops[1..], if h.Contents() == [] then 0 else since);
        case Put(e) =>
          EnqueueLoss(l, h, e);
          PacedLosesNothing(l, h', ops[1..], if h'.accepted == h.accepted then since else since + 1);
      }
    }
  }

  ghost predicate EvictedHaveSuccessors<E>(l: Limits, h: History<E>) {
    forall k :: 0 <= k < |h.fates| && h.fates[k] == Evicted ==> k + l.capacity < |h.accepted|
  }

  /** In every run the k-th accepted event is evicted only once the (k + capacity)-th has been accepted. */
  lemma {:induction false} EvictedAfterSuccessors<E>(l: Limits, h: History<E>, ops: seq<Op<E>>)
    requires l.Valid() && h.Valid(l) && EvictedHaveSuccessors(l, h)
    ensures EvictedHaveSuccessors(l, ApplyAll(l, h, ops))
    decreases |ops|
  {
    if ops != [] {
      var h' := Apply(l, h, ops[0]);
      assert forall k :: 0 <= k < |h.fates| ==> h'.fates[k] == h.fates[k];
      EvictedAfterSuccessors(l, h', ops[1..]);
    }
  }

  /** The pace is sharp: one event more than the capacity, with no take between, loses the first. */
  lemma {:induction false} OneMoreLosesTheFirst<E>(l: Limits, es: seq<E>, e: E)
    requires l.Valid() && !l.rejects && |es| == l.capacity
    ensures Enqueue(l, ApplyAll(l, History([], []), Puts(es)), e).0 == History(es + [e], [Evicted])
  {
    PutsFill(l, [], es);
    assert [] + es == es;
  }

  /** "block" does not block: under a rejecting policy the same event is refused, and nothing changes. */
  lemma FullQueueRefuses<E>(l: Limits, es: seq<E>, e: E)
    requires l.Valid() && l.rejects && |es| == l.capacity
    ensures Enqueue(l, ApplyAll(l, History([], []), Puts(es)), e) == (History(es, []), false)
  {
    PutsFill(l, [], es);
    assert [] + es == es;
  }

  function Puts<E>(es: seq<E>): seq<Op<E>> {
    seq(|es|, i requires 0 <= i < |es| => Put(es[i]))
  }

  lemma {:induction false} PutsFill<E>(l: Limits, had: seq<E>, es: seq<E>)
    requires l.Valid() && |had| + |es| <= l.capacity
    ensures ApplyAll(l, History(had, []), Puts(es)) == History(had + es, [])
    decreases |es|
  {
    if es == [] {
      assert had + es == had;
    } else {
      assert Puts(es)[1..] == Puts(es[1..]) && Puts(es)[0] == Put(es[0]);
      assert (had + [es[0]]) + es[1..] == had + es;
      PutsFill(l, had + [es[0]], es[1..]);
    }
  }

  /** Nothing has been evicted: taken then queued is everything accepted. */
  ghost predicate AllAccountedFor<E>(h: History<E>)
    requires |h.fates| <= |h.accepted|
  {
    Left(h, Taken) + h.Contents() == h.accepted
  }

  lemma RejectingStep<E>(l: Limits, h: History<E>, op: Op<E>)
    requires l.Valid() && h.Valid(l) && l.rejects && AllAccountedFor(h)
    ensures AllAccountedFor(Apply(l, h, op)) && Left(Apply(l, h, op), Evicted) == Left(h, Evicted)
  {
    match op
    case Take =>
      TakeBatchTakes(l, h);
      Associative(Left(h, Taken), Batch(l, h), TakeBatch(l, h).Contents());
    case Put(e) =>
      EnqueueLoss(l, h, e);
      var h' := Enqueue(l, h, e).0;
      if h' != h {
        assert h'.Contents() == h.Contents() + [e];
        Associative(Left(h, Taken), h.Contents(), [e]);
      }
  }

  /** A policy that rejects never evicts, over any sequence of operations. */
  lemma {:induction false} RejectingNeverEvicts<E>(l: Limits, h: History<E>, ops: seq<Op<E>>)
    requires l.Valid() && h.Valid(l) && l.rejects && AllAccountedFor(h)
    ensures AllAccountedFor(ApplyAll(l, h, ops)) && Left(ApplyAll(l, h, ops), Evicted) == Left(h, Evicted)
    decreases |ops|
  {
    if ops != [] {
      RejectingStep(l, h, ops[0]);
      RejectingNeverEvicts(l, Apply(l, h, ops[0]), ops[1..]);
    }
  }

  // ---------------------------------------------------------------- a flush

  function Batches<E>(n: nat, s: seq<E>): seq<seq<E>>
    requires n > 0
    decreases |s|
  {
    if s == [] then [] else [s[..Min(n, |s|)]] + Batches(n, s[Min(n, |s|)..])
  }

  lemma FirstBatch<E>(n: nat, b: seq<E>, rest: seq<E>)
    requires n > 0 && b != [] && |b| == Min(n, |b| + |rest|)
    ensures Batches(n, b + rest) == [b] + Batches(n, rest)
  {
    assert (b + rest)[..|b|] == b && (b + rest)[|b|..] == rest;
  }

  function Concat<E>(ss: seq<seq<E>>): seq<E> {
    if ss == [] then [] else ss[0] + Concat(ss[1..])
  }

  /** Flushing hands out everything, in order, in batches of at most `n`. */
  lemma {:induction false} BatchesPartition<E>(n: nat, s: seq<E>)
    requires n > 0
    ensures Concat(Batches(n, s)) == s
    ensures forall b :: b in Batches(n, s) ==> 0 < |b| <= n
    decreases |s|
  {
    if s != [] {
      var k := Min(n, |s|);
      BatchesPartition(n, s[k..]);
      assert s == s[..k] + s[k..];
    }
  }

  /** The number of batches is the length divided by the batch size, rounded up. */
  lemma {:induction false} BatchesCount<E>(n: nat, s: seq<E>)
    requires n > 0
    ensures n * |Batches(n, s)| >= |s| && (s != [] ==> n * (|Batches(n, s)| - 1) < |s|)
    decreases |s|
  {
    if s != [] {
      var k := Min(n, |s|);
      BatchesCount(n, s[k..]);
      Distribute(n, |Batches(n, s[k..])|);
    }
  }

  lemma Distribute(n: nat, m: nat)
    ensures n * (m + 1) == n * m + n && n * m == n * (m - 1) + n
  {
  }

  lemma {:induction false} ConcatAppend<E>(a: seq<seq<E>>, b: seq<seq<E>>)
    ensures Concat(a + b) == Concat(a) + Concat(b)
  {
    if a == [] {
      assert a + b == b;
    } else {
      assert (a + b)[1..] == a[1..] + b;
      ConcatAppend(a[1..], b);
      Associative(a[0], Concat(a[1..]), Concat(b));
    }
  }
}
