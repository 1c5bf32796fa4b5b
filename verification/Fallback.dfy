/** The fallback rules of `executeNonStream` and `executeStream` (internal/pipeline/pipeline.go) over
    what each route would come to: a walk along the route list that skips, retries or stops. */
module Fallback {
  import opened Capabilities

  /** What a provider does when route `i` is tried. */
  datatype Invocation = Refuses(error: CallError) | Opens(chunks: seq<ResponseChunk>)

  /** What the loop makes of it; a route whose provider is not configured is skipped. */
  datatype Outcome = Skipped | Failed(error: CallError) | Won

  datatype Verdict = WonAt(index: nat) | StoppedAt(index: nat) | Exhausted

  /** A streaming request has won as soon as `Invoke` returns a channel. */
  function OpenOutcome(configured: bool, v: Invocation): Outcome {
    if !configured then Skipped
    else if v.Refuses? then Failed(v.error)
    else Won
  }

  /** Any other request also needs the whole chunk sequence to be free of errors. */
  function CollectOutcome(configured: bool, v: Invocation): Outcome {
    if !configured then Skipped
    else if v.Refuses? then Failed(v.error)
    else if ErrorFree(v.chunks) then Won
    else match FirstError(v.chunks)
         case Some(e) => Failed(Upstream(e))
         case None => Won
  }

  /** How many routes may be tried: `maxAttempts` clipped to the list, all of them if not positive. */
  function Bound(maxAttempts: int, routes: nat): (n: nat)
    ensures n <= routes
    ensures n == routes <==> maxAttempts <= 0 || maxAttempts >= routes
    ensures 0 < maxAttempts < routes ==> n == maxAttempts
  {
    var m := if maxAttempts < routes then maxAttempts else routes;
    if m <= 0 then routes else m
  }

  /** The provider answers, and its whole chunk sequence is free of errors. */
  predicate Delivers(v: Invocation) {
    v.Opens? && ErrorFree(v.chunks)
  }

  predicate GoesOn(o: Outcome) {
    o.Skipped? || (o.Failed? && Retryable(o.error))
  }

  /** The walk from route `i` on. */
  function Walk(os: seq<Outcome>, i: nat): Verdict
    requires i <= |os|
    decreases |os| - i
  {
    if i == |os| then Exhausted
    else match os[i]
         case Won => WonAt(i)
         case Skipped => Walk(os, i + 1)
         case Failed(e) => if Retryable(e) then Walk(os, i + 1) else StoppedAt(i)
  }

  /** How many routes the walk looks at. */
  function Visited(os: seq<Outcome>): (n: nat)
    ensures n <= |os|
  {
    WalkFrom(os, 0);
    match Walk(os, 0)
    case WonAt(i) => i + 1
    case StoppedAt(i) => i + 1
    case Exhausted => |os|
  }

  /** The routes among the first `n` whose provider is configured, in order. */
  function Configured(os: seq<Outcome>, n: nat): seq<nat>
    requires n <= |os|
  {
    if n == 0 then []
    else Configured(os, n - 1) + if os[n - 1].Skipped? then [] else [n - 1]
  }

  /** The last configured route among the first `n`: the one whose headers the result carries. */
  function LastTried(os: seq<Outcome>, n: nat): Option<nat>
    requires n <= |os|
  {
    if n == 0 then None
    else if os[n - 1].Skipped? then LastTried(os, n - 1)
    else Some(n - 1)
  }

  lemma {:induction false} WalkFrom(os: seq<Outcome>, i: nat)
    requires i <= |os|
    ensures match Walk(os, i)
            case WonAt(w) => i <= w < |os| && os[w].Won? && forall j :: i <= j < w ==> GoesOn(os[j])
            case StoppedAt(w) =>
              i <= w < |os| && os[w].Failed? && !GoesOn(os[w]) && forall j :: i <= j < w ==> GoesOn(os[j])
            case Exhausted => forall j :: i <= j < |os| ==> GoesOn(os[j])
    decreases |os| - i
  {
    if i < |os| && GoesOn(os[i]) {
      WalkFrom(os, i + 1);
    }
  }

  /** The winner is exactly the first route that succeeds, given that every earlier configured route
      failed retryably. */
  lemma WinnerIsExact(os: seq<Outcome>, w: nat)
    ensures Walk(os, 0) == WonAt(w) <==> w < |os| && os[w].Won? && forall j :: 0 <= j < w ==> GoesOn(os[j])
    ensures Walk(os, 0) == StoppedAt(w) <==>
              w < |os| && os[w].Failed? && !Retryable(os[w].error) && forall j :: 0 <= j < w ==> GoesOn(os[j])
    ensures Walk(os, 0) == Exhausted <==> forall j :: 0 <= j < |os| ==> GoesOn(os[j])
  {
    WalkFrom(os, 0);
  }

  predicate Ascending(q: seq<nat>) {
    forall i, j :: 0 <= i < j < |q| ==> q[i] < q[j]
  }

  /** `q` holds exactly the configured routes among the first `n`. */
  ghost predicate Holds(q: seq<nat>, os: seq<Outcome>, n: nat)
    requires n <= |os|
  {
    forall i :: i in q <==> 0 <= i < n && !os[i].Skipped?
  }

  lemma AscendingSnoc(q: seq<nat>, os: seq<Outcome>, n: nat)
    requires n < |os| && Ascending(q) && Holds(q, os, n)
    ensures Ascending(q + [n])
  {
    forall i | 0 <= i < |q| ensures q[i] < n {
      assert q[i] in q;
    }
  }

  lemma HoldsSkip(q: seq<nat>, os: seq<Outcome>, n: nat)
    requires n < |os| && Holds(q, os, n) && os[n].Skipped?
    ensures Holds(q, os, n + 1)
  {
  }

  lemma HoldsSnoc(q: seq<nat>, os: seq<Outcome>, n: nat)
    requires n < |os| && Holds(q, os, n) && !os[n].Skipped?
    ensures Holds(q + [n], os, n + 1)
  {
    forall i ensures i in q + [n] <==> 0 <= i < n + 1 && !os[i].Skipped? {
      assert i in q + [n] <==> i in q || i == n;
    }
  }

  lemma {:induction false} ConfiguredHolds(os: seq<Outcome>, n: nat)
    requires n <= |os|
    ensures Holds(Configured(os, n), os, n)
  {
    if n > 0 {
      ConfiguredHolds(os, n - 1);
      if os[n - 1].Skipped? {
        HoldsSkip(Configured(os, n - 1), os, n - 1);
        assert Configured(os, n) == Configured(os, n - 1);
      } else {
        HoldsSnoc(Configured(os, n - 1), os, n - 1);
      }
    }
  }

  lemma {:induction false} ConfiguredAscends(os: seq<Outcome>, n: nat)
    requires n <= |os|
    ensures Ascending(Configured(os, n))
  {
    if n > 0 {
      ConfiguredAscends(os, n - 1);
      ConfiguredHolds(os, n - 1);
      AscendingSnoc(Configured(os, n - 1), os, n - 1);
      assert os[n - 1].Skipped? ==> Configured(os, n) == Configured(os, n - 1);
    }
  }

  lemma {:induction false} LastTriedMeaning(os: seq<Outcome>, n: nat)
    requires n <= |os|
    ensures LastTried(os, n)
         == if Configured(os, n) == [] then None else Some(Configured(os, n)[|Configured(os, n)| - 1])
  {
    if n > 0 {
      LastTriedMeaning(os, n - 1);
    }
  }

  /** `Configured` is what it says: exactly the configured routes, in increasing order, ending with
      the last one tried. */
  lemma ConfiguredMeaning(os: seq<Outcome>, n: nat)
    requires n <= |os|
    ensures Holds(Configured(os, n), os, n) && Ascending(Configured(os, n))
    ensures LastTried(os, n)
         == if Configured(os, n) == [] then None else Some(Configured(os, n)[|Configured(os, n)| - 1])
  {
    ConfiguredHolds(os, n);
    ConfiguredAscends(os, n);
    LastTriedMeaning(os, n);
  }

  /** The providers tried are the configured routes up to the stop point; at a win or a stop the last
      of them is the route it happened at. */
  lemma StopPoint(os: seq<Outcome>)
    ensures Walk(os, 0).WonAt? || Walk(os, 0).StoppedAt? ==> LastTried(os, Visited(os)) == Some(Walk(os, 0).index)
    ensures forall i :: 0 <= i < Visited(os) - 1 ==> GoesOn(os[i])
    ensures Visited(os) == if Walk(os, 0).Exhausted? then |os| else Walk(os, 0).index + 1
  {
    WalkFrom(os, 0);
  }

  lemma EndsHere(os: seq<Outcome>, i: nat)
    requires i < |os| && !GoesOn(os[i]) && forall j :: 0 <= j < i ==> GoesOn(os[j])
    ensures os[i].Won? ==> Walk(os, 0) == WonAt(i)
    ensures os[i].Failed? ==> Walk(os, 0) == StoppedAt(i)
    ensures Visited(os) == i + 1
  {
    WalkFrom(os, 0);
  }

  /** A walk that has gone past `n` routes and ended there, without success. */
  lemma WalkStops(os: seq<Outcome>, n: nat)
    requires n <= |os|
    requires (n == |os| && forall j :: 0 <= j < n ==> GoesOn(os[j])) || (n > 0 && Walk(os, 0) == StoppedAt(n - 1))
    ensures !Walk(os, 0).WonAt? && Visited(os) == n
  {
    WalkFrom(os, 0);
  }

  /** A success or a non-retryable stop under a bound stays the same under every larger bound; so a
      larger bound never turns success into failure. */
  lemma BoundStable(os: seq<Outcome>, m: nat, n: nat)
    requires m <= n <= |os|
    ensures Walk(os[..m], 0) != Exhausted ==> Walk(os[..n], 0) == Walk(os[..m], 0)
    ensures Walk(os[..m], 0) == Exhausted ==>
              Walk(os[..n], 0) == Exhausted || Walk(os[..n], 0).index >= m
  {
    assert forall j :: 0 <= j < m ==> os[..m][j] == os[j] == os[..n][j];
    WalkFrom(os[..m], 0);
    WalkFrom(os[..n], 0);
  }

  /** The same for the configured number of attempts, which is unbounded when not positive. */
  lemma MoreAttemptsNeverHurt(os: seq<Outcome>, a: int, b: int)
    requires b <= 0 || (0 < a <= b)
    ensures Walk(os[..Bound(a, |os|)], 0) != Exhausted ==>
              Walk(os[..Bound(b, |os|)], 0) == Walk(os[..Bound(a, |os|)], 0)
    ensures b <= 0 || b >= |os| ==> os[..Bound(b, |os|)] == os
  {
    BoundStable(os, Bound(a, |os|), Bound(b, |os|));
  }

  // ---------------------------------------------------------------- streaming against collecting

  function OpenOutcomes(configured: nat -> bool, invoke: nat -> Invocation, n: nat): seq<Outcome> {
    seq(n, i requires 0 <= i < n => OpenOutcome(configured(i), invoke(i)))
  }

  function CollectOutcomes(configured: nat -> bool, invoke: nat -> Invocation, n: nat): seq<Outcome> {
    seq(n, i requires 0 <= i < n => CollectOutcome(configured(i), invoke(i)))
  }

  /** `u` is the error that the attempt fails with: the provider refuses with it, or it is the error of
      the first error chunk of its stream. */
  ghost predicate FailsWith(v: Invocation, u: UpstreamError) {
    match v
    case Refuses(e) => e == Upstream(u)
    case Opens(chunks) => exists k :: ErrsAt(chunks, k, u)
  }

  predicate ErrsAt(chunks: seq<ResponseChunk>, k: int, u: UpstreamError) {
    0 <= k < |chunks| && chunks[k].error == Some(u) && forall m :: 0 <= m < k ==> chunks[m].error.None?
  }

  lemma {:induction false} FirstErrorMeans(chunks: seq<ResponseChunk>)
    ensures FirstError(chunks) == None <==> forall k :: 0 <= k < |chunks| ==> chunks[k].error.None?
    ensures forall u :: FirstError(chunks) == Some(u) <==> exists k :: ErrsAt(chunks, k, u)
  {
    if chunks != [] {
      FirstErrorMeans(chunks[1..]);
      forall u ensures FirstError(chunks) == Some(u) <==> exists k :: ErrsAt(chunks, k, u) {
        FirstErrorCons(chunks, u);
      }
      assert chunks == [chunks[0]] + chunks[1..];
    }
  }

  lemma FirstErrorCons(chunks: seq<ResponseChunk>, u: UpstreamError)
    requires chunks != [] && (FirstError(chunks[1..]) == Some(u) <==> exists k :: ErrsAt(chunks[1..], k, u))
    ensures FirstError(chunks) == Some(u) <==> exists k :: ErrsAt(chunks, k, u)
  {
    if chunks[0].error.Some? {
      if FirstError(chunks) == Some(u) {
        assert ErrsAt(chunks, 0, u);
      }
    } else {
      forall k ensures ErrsAt(chunks[1..], k, u) <==> ErrsAt(chunks, k + 1, u) {
        ErrsAtShift(chunks, k, u);
      }
      if k :| ErrsAt(chunks, k, u) {
        assert ErrsAt(chunks[1..], k - 1, u) <==> ErrsAt(chunks, k, u);
      }
    }
  }

  lemma ErrsAtShift(chunks: seq<ResponseChunk>, k: int, u: UpstreamError)
    requires chunks != [] && chunks[0].error.None?
    ensures ErrsAt(chunks[1..], k, u) <==> ErrsAt(chunks, k + 1, u)
  {
    if 0 <= k < |chunks| - 1 {
      assert forall m :: 0 <= m < k ==> chunks[1..][m] == chunks[m + 1];
      assert forall m :: 1 <= m < k + 1 ==> chunks[m] == chunks[1..][m - 1];
    }
  }

  /** What collecting makes of one route, in terms of its configuration and its answer. */
  lemma CollectMeans(configured: bool, v: Invocation)
    ensures CollectOutcome(configured, v).Skipped? <==> !configured
    ensures CollectOutcome(configured, v).Won? <==>
              configured && v.Opens? && forall k :: 0 <= k < |v.chunks| ==> v.chunks[k].error.None?
    ensures forall m :: CollectOutcome(configured, v) == Failed(Plain(m)) <==> configured && v == Refuses(Plain(m))
    ensures forall u :: CollectOutcome(configured, v) == Failed(Upstream(u)) <==> configured && FailsWith(v, u)
  {
    if v.Opens? {
      FirstErrorMeans(v.chunks);
    }
  }

  /** Collecting goes on past a route that is not configured or that failed, by a refusal or by its
      first error chunk, with a plain error or one that is retryable, rate limited or a server's. */
  ghost predicate CollectPasses(configured: bool, v: Invocation) {
    || !configured || (v.Refuses? && v.error.Plain?)
    || exists u :: FailsWith(v, u) && (u.retryable || u.rateLimited || u.httpStatus >= 500)
  }

  /** It stops at a route that failed with any other error. */
  ghost predicate CollectStops(configured: bool, v: Invocation) {
    configured && exists u :: FailsWith(v, u) && !u.retryable && !u.rateLimited && u.httpStatus < 500
  }

  lemma CollectGoesOn(configured: bool, v: Invocation)
    ensures GoesOn(CollectOutcome(configured, v)) <==> CollectPasses(configured, v)
    ensures CollectOutcome(configured, v).Failed? && !GoesOn(CollectOutcome(configured, v)) <==>
              CollectStops(configured, v)
  {
    CollectMeans(configured, v);
    if u :| FailsWith(v, u) {
      assert configured ==> CollectOutcome(configured, v) == Failed(Upstream(u));
    }
  }

  /** Where collecting wins and where it stops, in terms of the configuration and the answers alone:
      after routes it goes on past, at the first stream without an error chunk, or at the first error
      that is not worth another attempt. */
  lemma CollectsFirst(configured: nat -> bool, invoke: nat -> Invocation, n: nat, i: nat)
    ensures Walk(CollectOutcomes(configured, invoke, n), 0) == WonAt(i) <==>
              && i < n && configured(i) && invoke(i).Opens?
              && (forall k :: 0 <= k < |invoke(i).chunks| ==> invoke(i).chunks[k].error.None?)
              && forall j :: 0 <= j < i ==> CollectPasses(configured(j), invoke(j))
    ensures Walk(CollectOutcomes(configured, invoke, n), 0) == StoppedAt(i) <==>
              && i < n && CollectStops(configured(i), invoke(i))
              && forall j :: 0 <= j < i ==> CollectPasses(configured(j), invoke(j))
  {
    var co := CollectOutcomes(configured, invoke, n);
    forall j: nat | j < n ensures GoesOn(co[j]) <==> CollectPasses(configured(j), invoke(j)) {
      CollectGoesOn(configured(j), invoke(j));
    }
    if i < n {
      CollectGoesOn(configured(i), invoke(i));
      CollectMeans(configured(i), invoke(i));
    }
    WinnerIsExact(co, i);
  }

  lemma OutcomesRelate(configured: bool, v: Invocation)
    ensures CollectOutcome(configured, v).Won? <==> configured && Delivers(v)
    ensures !OpenOutcome(configured, v).Won? ==> CollectOutcome(configured, v) == OpenOutcome(configured, v)
    ensures OpenOutcome(configured, v).Won? && !Delivers(v) ==> CollectOutcome(configured, v).Failed?
  {
    if v.Opens? {
      FirstErrorPrefix(v.chunks, []);
      assert v.chunks + [] == v.chunks;
    }
  }

  lemma OutcomeSeqsRelate(configured: nat -> bool, invoke: nat -> Invocation, n: nat)
    ensures var so, co := OpenOutcomes(configured, invoke, n), CollectOutcomes(configured, invoke, n);
            && (forall i :: 0 <= i < n && !so[i].Won? ==> co[i] == so[i])
            && (forall i :: 0 <= i < n && co[i].Won? ==> so[i].Won?)
            && (forall i :: 0 <= i < n && so[i].Won? ==> (co[i].Won? <==> Delivers(invoke(i))))
            && (forall i :: 0 <= i < n && so[i].Skipped? <==> 0 <= i < n && co[i].Skipped?)
  {
    forall i | 0 <= i < n {
      OutcomesRelate(configured(i), invoke(i));
    }
  }

  /** Streaming finds a route whenever collecting does, at an index that is no larger; when streaming
      finds none, both end the same way. */
  lemma StreamingFindsRoute(configured: nat -> bool, invoke: nat -> Invocation, n: nat)
    ensures var so, co := Walk(OpenOutcomes(configured, invoke, n), 0), Walk(CollectOutcomes(configured, invoke, n), 0);
            && (co.WonAt? ==> so.WonAt? && so.index <= co.index)
            && (!so.WonAt? ==> co == so)
            && (so.WonAt? && co.StoppedAt? ==> so.index <= co.index)
  {
    var so, co := OpenOutcomes(configured, invoke, n), CollectOutcomes(configured, invoke, n);
    OutcomeSeqsRelate(configured, invoke, n);
    WalkFrom(so, 0);
    WalkFrom(co, 0);
  }

  /** Both loops go on past a route like this: not configured, or refused with a retryable error. */
  predicate PassedOver(configured: bool, v: Invocation) {
    !configured || (v.Refuses? && Retryable(v.error))
  }

  /** The first route that opens a stream, if the loops get to one, opens one without an error chunk. */
  ghost predicate FirstStreamDelivers(configured: nat -> bool, invoke: nat -> Invocation, n: nat) {
    forall i :: 0 <= i < n && configured(i) && invoke(i).Opens?
                && (forall j :: 0 <= j < i ==> PassedOver(configured(j), invoke(j)))
                ==> ErrorFree(invoke(i).chunks)
  }

  /** Where streaming wins and where it stops: only refusals count. */
  lemma StreamsFirst(configured: nat -> bool, invoke: nat -> Invocation, n: nat, i: nat)
    ensures Walk(OpenOutcomes(configured, invoke, n), 0) == WonAt(i) <==>
              && i < n && configured(i) && invoke(i).Opens?
              && forall j :: 0 <= j < i ==> PassedOver(configured(j), invoke(j))
    ensures Walk(OpenOutcomes(configured, invoke, n), 0) == StoppedAt(i) <==>
              && i < n && configured(i) && invoke(i).Refuses? && invoke(i).error.Upstream?
              && !invoke(i).error.cause.retryable && !invoke(i).error.cause.rateLimited
              && invoke(i).error.cause.httpStatus < 500
              && forall j :: 0 <= j < i ==> PassedOver(configured(j), invoke(j))
  {
    var so := OpenOutcomes(configured, invoke, n);
    assert forall j :: 0 <= j < n ==> (GoesOn(so[j]) <==> PassedOver(configured(j), invoke(j)));
    WinnerIsExact(so, i);
  }

  /** What it takes for streaming to go on. */
  lemma PassedOverMeans(configured: bool, v: Invocation)
    ensures PassedOver(configured, v) <==>
              !configured || (v.Refuses? && match v.error
                                            case Plain(_) => true
                                            case Upstream(u) => u.retryable || u.rateLimited || u.httpStatus >= 500)
  {
  }

  /** The two loops come to the same verdict if and only if the first stream opened, if there is one,
      is free of error chunks; they have then tried the same providers in the same order. */
  lemma LoopsAgreeExactly(configured: nat -> bool, invoke: nat -> Invocation, n: nat)
    ensures var so, co := OpenOutcomes(configured, invoke, n), CollectOutcomes(configured, invoke, n);
            && (Walk(so, 0) == Walk(co, 0) <==> FirstStreamDelivers(configured, invoke, n))
            && (Walk(so, 0) == Walk(co, 0) ==> Configured(so, Visited(so)) == Configured(co, Visited(co)))
  {
    var so, co := OpenOutcomes(configured, invoke, n), CollectOutcomes(configured, invoke, n);
    OutcomeSeqsRelate(configured, invoke, n);
    WalkFrom(so, 0);
    WalkFrom(co, 0);
    forall i: nat { StreamsFirst(configured, invoke, n, i); }
    if Walk(so, 0) == Walk(co, 0) {
      SameConfigured(so, co, Visited(so));
    }
  }

  /** They may well differ: a stream that opens and then fails retryably, before a second route that
      delivers.  Streaming has settled on the first; collecting answers from the second. */
  lemma LoopsMayDisagree(e: UpstreamError) returns (configured: nat -> bool, invoke: nat -> Invocation)
    requires Retryable(Upstream(e))
    ensures Walk(OpenOutcomes(configured, invoke, 2), 0) == WonAt(0)
    ensures Walk(CollectOutcomes(configured, invoke, 2), 0) == WonAt(1)
  {
    configured := (i: nat) => true;
    invoke := (i: nat) => Opens(if i == 0 then [ResponseChunk(None, None, Some(e))] else []);
    StreamsFirst(configured, invoke, 2, 0);
    assert invoke(0).chunks[0].error.Some?;
    var co := CollectOutcomes(configured, invoke, 2);
    assert co[0] == Failed(Upstream(e));
    assert ErrorFree(invoke(1).chunks) && co[1] == CollectOutcome(true, invoke(1)) == Won;
    WinnerIsExact(co, 1);
  }

  lemma {:induction false} SameConfigured(a: seq<Outcome>, b: seq<Outcome>, n: nat)
    requires n <= |a| == |b| && forall i :: 0 <= i < n ==> (a[i].Skipped? <==> b[i].Skipped?)
    ensures Configured(a, n) == Configured(b, n)
  {
    if n > 0 {
      SameConfigured(a, b, n - 1);
    }
  }
}
