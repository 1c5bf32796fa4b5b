/** The observer queue as the object it is (internal/observability/queue.go): a slice shifted in place
    under a lock.  Each method is one critical section, or for `Flush` a loop of them that nobody
    interrupts; interleavings with producers are the business of `QueueRun`. */
module ObserverQueue {
  import opened QueueModel
  import opened Sequences

  const DEFAULT_CAPACITY: nat := 10000
  const DEFAULT_BATCH: nat := 100

  predicate Rejects(overflow: string) { overflow == "block" || overflow == "fail" }

  function OneOrNone<E>(b: seq<E>): seq<seq<E>> {
    if |b| == 0 then [] else [b]
  }

  /** What is logged when the first `n` observers are given `b`: a line for each that fails. */
  function FailureLog<E>(fails: (nat, seq<E>) -> bool, b: seq<E>, n: nat): seq<(nat, seq<E>)> {
    if n == 0 then [] else FailureLog(fails, b, n - 1) + if fails(n - 1, b) then [(n - 1, b)] else []
  }

  predicate Ascending<E>(log: seq<(nat, seq<E>)>) {
    forall i, j :: 0 <= i < j < |log| ==> log[i].0 < log[j].0
  }

  lemma {:induction false} FailuresLogged<E>(fails: (nat, seq<E>) -> bool, b: seq<E>, n: nat, x: (nat, seq<E>))
    ensures x in FailureLog(fails, b, n) <==> x.1 == b && x.0 < n && fails(x.0, b)
  {
    if n > 0 {
      FailuresLogged(fails, b, n - 1, x);
    }
  }

  /** Exactly the failing observers are logged, in their order. */
  lemma {:induction false} FailureLogMeans<E>(fails: (nat, seq<E>) -> bool, b: seq<E>, n: nat)
    ensures forall x :: x in FailureLog(fails, b, n) <==> x.1 == b && x.0 < n && fails(x.0, b)
    ensures Ascending(FailureLog(fails, b, n))
  {
    forall x ensures x in FailureLog(fails, b, n) <==> x.1 == b && x.0 < n && fails(x.0, b) {
      FailuresLogged(fails, b, n, x);
    }
    if n > 0 {
      FailureLogMeans(fails, b, n - 1);
      var before := FailureLog(fails, b, n - 1);
      forall i | 0 <= i < |before| ensures before[i].0 < n - 1 {
        FailuresLogged(fails, b, n - 1, before[i]);
      }
      assert FailureLog(fails, b, n) == before + if fails(n - 1, b) then [(n - 1, b)] else [];
    }
  }

  /** What is logged when they are given one batch after the other. */
  function FlushLog<E>(fails: (nat, seq<E>) -> bool, bs: seq<seq<E>>, n: nat): seq<(nat, seq<E>)> {
    if bs == [] then [] else FlushLog(fails, bs[..|bs| - 1], n) + FailureLog(fails, bs[|bs| - 1], n)
  }

  lemma OneBatchLog<E>(before: seq<(nat, seq<E>)>, fails: (nat, seq<E>) -> bool, b: seq<E>, n: nat)
    ensures before + FlushLog(fails, OneOrNone(b), n) == if b == [] then before else before + FailureLog(fails, b, n)
  {
    if b != [] {
      assert [b][..0] == [] && FlushLog(fails, [b], n) == [] + FailureLog(fails, b, n);
    }
  }

  lemma NextBatch<E>(n: nat, b: seq<E>, rest: seq<E>)
    requires n > 0 && |b| == Min(n, |b| + |rest|)
    ensures OneOrNone(b) + Batches(n, rest) == Batches(n, b + rest)
  {
    if b == [] {
      assert b + rest == rest && OneOrNone(b) + Batches(n, rest) == Batches(n, rest);
    } else {
      FirstBatch(n, b, rest);
    }
  }

  /** Every observer has been given `more` since it had what `was` says. */
  ghost predicate AllGiven<E>(was: seq<seq<seq<E>>>, more: seq<seq<E>>, now: seq<seq<seq<E>>>) {
    |now| == |was| && forall i :: 0 <= i < |was| ==> now[i] == was[i] + more
  }

  lemma AllGivenMore<E>(was: seq<seq<seq<E>>>, a: seq<seq<E>>, mid: seq<seq<seq<E>>>,
                     b: seq<seq<E>>, now: seq<seq<seq<E>>>)
    requires AllGiven(was, a, mid) && AllGiven(mid, b, now)
    ensures AllGiven(was, a + b, now)
  {
    forall i | 0 <= i < |was| ensures now[i] == was[i] + (a + b) {
      Associative(was[i], a, b);
    }
  }

  /** One batch more, after a log that says `before`. */
  lemma FlushLogMore<E>(before: seq<(nat, seq<E>)>, fails: (nat, seq<E>) -> bool, bs: seq<seq<E>>, b: seq<E>, n: nat)
    ensures before + FlushLog(fails, bs, n) + FlushLog(fails, OneOrNone(b), n)
         == before + FlushLog(fails, bs + OneOrNone(b), n)
  {
    Associative(before, FlushLog(fails, bs, n), FlushLog(fails, OneOrNone(b), n));
    if b == [] {
      assert bs + OneOrNone(b) == bs;
    } else {
      assert (bs + [b])[..|bs|] == bs && [b][..0] == [];
      assert FlushLog(fails, [b], n) == [] + FailureLog(fails, b, n);
    }
  }

  class Queue<E(0)> {
    const limits: Limits
    const observers: nat
    var events: array<E>
    var len: nat
    /** What `events[..len]` refines. */
    ghost var history: History<E>
    /** For each observer, the batches it has been given. */
    var delivered: seq<seq<seq<E>>>
    /** The failures logged: which observer, on which batch. */
    var logged: seq<(nat, seq<E>)>

    ghost predicate Valid()
      reads this, events
    {
      && limits.Valid() && events.Length == limits.capacity && len <= events.Length
      && history.Valid(limits) && events[..len] == history.Contents()
      && |delivered| == observers
    }

    /** `NewQueue`: sizes that are not positive get their defaults. */
    constructor (size: int, batch: int, overflow: string, observers: nat)
      ensures Valid() && fresh(events) && history == History([], []) && logged == []
      ensures limits == Limits(if size > 0 then size else 10000, if batch > 0 then batch else 100,
                               overflow == "block" || overflow == "fail")
      ensures this.observers == observers && forall i :: 0 <= i < observers ==> delivered[i] == []
    {
      var capacity := if size <= 0 then DEFAULT_CAPACITY else size;
      limits := Limits(capacity, if batch <= 0 then DEFAULT_BATCH else batch, Rejects(overflow));
      this.observers := observers;
      events := new E[capacity];
      len, history, delivered, logged := 0, History([], []), seq(observers, _ => []), [];
    }

    /** Moves the events from `n` on to the front, in place. */
    method ShiftDown(n: nat)
      requires n <= len <= events.Length
      modifies events
      ensures events[..len - n] == old(events[n..len])
    {
      for i := 0 to len - n
        invariant forall j :: 0 <= j < i ==> events[j] == old(events[j + n])
        invariant forall j :: i <= j < events.Length ==> events[j] == old(events[j])
      {
        events[i] := events[i + n];
      }
    }

    /** What a full queue that drops does: the oldest event makes room for the new one. */
    method Overwrite(e: E)
      requires Valid() && len == limits.capacity && !limits.rejects
      modifies this`history, events
      ensures Valid() && history == QueueModel.Enqueue(limits, old(history), e).0
    {
      ShiftDown(1);
      history := History(history.accepted + [e], history.fates + [Evicted]);
      events[len - 1] := e;
      assert events[..len] == events[..len - 1] + [e];
      assert history.Contents() == old(history.Contents()[1..]) + [e];
    }

    /** `Enqueue`: appends, or when full rejects or overwrites after shifting the oldest out. */
    method Enqueue(e: E) returns (ok: bool)
      requires Valid()
      modifies this`len, this`history, events
      ensures Valid()
      ensures (history, ok) == QueueModel.Enqueue(limits, old(history), e)
    {
      if len >= limits.capacity {
        if limits.rejects {
          return false;
        }
        Overwrite(e);
        return true;
      }
      events[len] := e;
      len := len + 1;
      history := history.(accepted := history.accepted + [e]);
      assert events[..len] == old(events[..len]) + [e];
      return true;
    }

    /** A fresh copy of the first `n` events. */
    method CopyOut(n: nat) returns (batch: array<E>)
      requires n <= len <= events.Length
      ensures fresh(batch) && batch[..] == events[..n]
    {
      batch := new E[n];
      for i := 0 to n
        modifies batch
        invariant forall j :: 0 <= j < i ==> batch[j] == events[j]
      {
        batch[i] := events[i];
      }
    }

    /** `takeBatch`: the batch is a fresh array, so no later operation of the queue can touch it. */
    method TakeBatch() returns (batch: array<E>)
      requires Valid()
      modifies this`len, this`history, events
      ensures Valid() && fresh(batch)
      ensures batch[..] == Batch(limits, old(history)) && history == QueueModel.TakeBatch(limits, old(history))
    {
      if len == 0 {
        assert history.Contents() == [] && Same(Taken, 0) == [];
        return new E[0];
      }
      var n := Min(limits.batch, len);
      ghost var queued := history.Contents();
      assert queued[..n] == events[..n] && queued[n..] == events[n..len];
      batch := CopyOut(n);
      ShiftDown(n);
      len := len - n;
      history := QueueModel.TakeBatch(limits, history);
      assert history.Contents() == queued[n..];
    }

    /** `flush` with no producer active: every observer gets every batch, whether or not some observer
        fails, and the batches are the queue cut up in order. */
    method Flush(fails: (nat, seq<E>) -> bool) returns (rounds: nat)
      requires Valid()
      modifies this`len, this`history, this`delivered, this`logged, events
      ensures Valid() && history.Contents() == [] && history.accepted == old(history.accepted)
      ensures Left(history, Evicted) == Left(old(history), Evicted)
      ensures rounds == |Batches(limits.batch, old(history.Contents()))|
      ensures forall i :: 0 <= i < observers ==>
                delivered[i] == old(delivered[i]) + Batches(limits.batch, old(history.Contents()))
      ensures logged == old(logged) + FlushLog(fails, Batches(limits.batch, old(history.Contents())), observers)
    {
      ghost var queued, was := history.Contents(), delivered;
      rounds := 0;
      var b := Round(fails);
      ghost var given := OneOrNone(b);
      NextBatch(limits.batch, b, history.Contents());
      while b != []
        invariant Valid() && history.accepted == old(history.accepted)
        invariant Left(history, Evicted) == Left(old(history), Evicted)
        invariant b == [] ==> history.Contents() == []
        invariant rounds == |given| - |OneOrNone(b)|
        invariant given + Batches(limits.batch, history.Contents()) == Batches(limits.batch, queued)
        invariant |was| == observers && AllGiven(was, given, delivered)
        invariant logged == old(logged) + FlushLog(fails, given, observers)
        decreases |b| + |history.Contents()|
      {
        ghost var before := delivered;
        rounds := rounds + 1;
        b := Round(fails);
        NextBatch(limits.batch, b, history.Contents());
        Associative(given, OneOrNone(b), Batches(limits.batch, history.Contents()));
        AllGivenMore(was, given, before, OneOrNone(b), delivered);
        FlushLogMore(old(logged), fails, given, b, observers);
        given := given + OneOrNone(b);
      }
      assert given + [] == given;
    }

    /** One turn of the loop: take a batch and, unless it is empty, emit it. */
    method Round(fails: (nat, seq<E>) -> bool) returns (b: seq<E>)
      requires Valid()
      modifies this`len, this`history, this`delivered, this`logged, events
      ensures Valid() && history.accepted == old(history.accepted)
      ensures Left(history, Evicted) == Left(old(history), Evicted)
      ensures b + history.Contents() == old(history.Contents())
      ensures |b| == Min(limits.batch, |old(history.Contents())|)
      ensures forall i :: 0 <= i < observers ==> delivered[i] == old(delivered[i]) + OneOrNone(b)
      ensures logged == old(logged) + FlushLog(fails, OneOrNone(b), observers)
    {
      TakeBatchTakes(limits, history);
      var batch := TakeBatch();
      b := batch[..];
      OneBatchLog(logged, fails, b, observers);
      if batch.Length != 0 {
        EmitToAll(b, fails);
      } else {
        forall i | 0 <= i < observers ensures delivered[i] + OneOrNone(b) == delivered[i] {
        }
      }
    }

    /** Each observer in turn; a failure is logged and the next observer still gets the batch. */
    method EmitToAll(b: seq<E>, fails: (nat, seq<E>) -> bool)
      requires |delivered| == observers
      modifies this`delivered, this`logged
      ensures |delivered| == observers && logged == old(logged) + FailureLog(fails, b, observers)
      ensures forall i :: 0 <= i < observers ==> delivered[i] == old(delivered[i]) + [b]
    {
      for i := 0 to observers
        invariant |delivered| == observers && logged == old(logged) + FailureLog(fails, b, i)
        invariant forall j :: 0 <= j < i ==> delivered[j] == old(delivered[j]) + [b]
        invariant forall j :: i <= j < observers ==> delivered[j] == old(delivered[j])
      {
        delivered := delivered[i := delivered[i] + [b]];
        if fails(i, b) {
          logged := logged + [(i, b)];
        }
      }
    }
  }
}
