/** The reconnect protocol of the plugin client (internal/plugins/rpc.go): any number of callers
    share one connection, guarded by a mutex, and replace it when a call reports that it is shut down.
    A critical section is one step; dialling and calling happen outside the lock. */
module Reconnect {

  /** Clients are numbered in the order in which they are dialled; number 0 is the one the plugin
      client is built with. */
  type Client = nat

  /** What one `call` is doing. */
  datatype Pc =
    | Idle
    | Fetching
    | First(client: Client)
    | Checking(stale: Client)
    | Dialling(stale: Client)
    | Deciding(stale: Client, spare: Client)
    | Discarding(stale: Client, spare: Client, current: Client)
    | Second(stale: Client, client: Client)

  /** `tries` are the clients on which the present (or last) `call` has issued the RPC. */
  datatype Caller = Caller(pc: Pc, tries: seq<Client>)

  /** The mutex-guarded field with its history: the clients dialled, closed and installed so far, and
      those on which some call has seen `ErrShutdown`. */
  datatype Shared = Shared(current: Client, dialled: nat, closes: seq<Client>, installed: seq<Client>,
                           broken: set<Client>)

  datatype State = State(shared: Shared, callers: map<nat, Caller>)

  datatype Label = Begin | Fetch | FirstReturns | FirstShutdown | Check
                 | DialFails | DialSucceeds | Decide | Discard | SecondReturns

  const START := Shared(0, 1, [], [0], {})

  const INIT := State(START, map[])

  function At(s: State, t: nat): Caller {
    if t in s.callers then s.callers[t] else Caller(Idle, [])
  }

  predicate Enabled(s: State, t: nat, l: Label) {
    var pc := At(s, t).pc;
    match l
    case Begin => pc.Idle?
    case Fetch => pc.Fetching?
    case FirstReturns => pc.First?
    case FirstShutdown => pc.First?
    case Check => pc.Checking?
    case DialFails => pc.Dialling?
    case DialSucceeds => pc.Dialling?
    case Decide => pc.Deciding?
    case Discard => pc.Discarding?
    case SecondReturns => pc.Second?
  }

  // What the critical sections and the dial do to the shared state.

  function Dialled(h: Shared): Shared { h.(dialled := h.dialled + 1) }

  function Installed(h: Shared, spare: Client): Shared {
    h.(closes := h.closes + [h.current], current := spare, installed := h.installed + [spare])
  }

  function Closed(h: Shared, c: Client): Shared { h.(closes := h.closes + [c]) }

  function NextShared(s: State, t: nat, l: Label): Shared
    requires Enabled(s, t, l)
  {
    var h, pc := s.shared, At(s, t).pc;
    match l
    case FirstShutdown => h.(broken := h.broken + {pc.client})
    case DialSucceeds => Dialled(h)
    case Decide => if h.current == pc.stale then Installed(h, pc.spare) else h
    case Discard => Closed(h, pc.spare)
    case _ => h
  }

  function NextCaller(s: State, t: nat, l: Label): Caller
    requires Enabled(s, t, l)
  {
    var h, c := s.shared, At(s, t);
    match l
    case Begin => Caller(Fetching, [])
    case Fetch => Caller(First(h.current), [h.current])
    case FirstReturns => c.(pc := Idle)
    case FirstShutdown => c.(pc := Checking(c.pc.client))
    case Check =>
      if h.current != c.pc.stale then Caller(Second(c.pc.stale, h.current), c.tries + [h.current])
      else c.(pc := Dialling(c.pc.stale))
    case DialFails => c.(pc := Idle)
    case DialSucceeds => c.(pc := Deciding(c.pc.stale, h.dialled))
    case Decide =>
      if h.current == c.pc.stale then Caller(Second(c.pc.stale, c.pc.spare), c.tries + [c.pc.spare])
      else c.(pc := Discarding(c.pc.stale, c.pc.spare, h.current))
    case Discard => Caller(Second(c.pc.stale, c.pc.current), c.tries + [c.pc.current])
    case SecondReturns => c.(pc := Idle)
  }

  function Step(s: State, t: nat, l: Label): State
    requires Enabled(s, t, l)
  {
    State(NextShared(s, t, l), s.callers[t := NextCaller(s, t, l)])
  }

  datatype Move = Move(who: nat, what: Label)

  predicate CanRun(s: State, run: seq<Move>)
    decreases |run|
  {
    run == [] || (Enabled(s, run[0].who, run[0].what) && CanRun(Step(s, run[0].who, run[0].what), run[1..]))
  }

  function After(s: State, run: seq<Move>): State
    requires CanRun(s, run)
    decreases |run|
  {
    if run == [] then s else After(Step(s, run[0].who, run[0].what), run[1..])
  }

  // ---------------------------------------------------------------- invariants

  ghost predicate Increasing(q: seq<Client>) {
    forall i, j :: 0 <= i < j < |q| ==> q[i] < q[j]
  }

  ghost predicate Distinct(q: seq<Client>) {
    forall i, j :: 0 <= i < j < |q| ==> q[i] != q[j]
  }

  /** The shared state by itself: installed clients come in dialling order, the last one is current,
      and every earlier one has been closed after some call saw `ErrShutdown` on it. */
  ghost predicate Sound(h: Shared) {
    && h.installed != [] && h.installed[|h.installed| - 1] == h.current
    && Increasing(h.installed) && h.current < h.dialled
    && (forall c :: c in h.installed && c != h.current ==> c in h.closes && c in h.broken)
    && Distinct(h.closes) && h.current !in h.closes
    && (forall c :: c in h.closes ==> c < h.dialled)
  }

  /** The freshly dialled client that only this caller knows. */
  predicate Holds(pc: Pc, c: Client) {
    (pc.Deciding? || pc.Discarding?) && pc.spare == c
  }

  ghost predicate StaleOk(h: Shared, stale: Client) {
    stale in h.installed && stale in h.broken
  }

  /** One caller's view of the shared state. */
  ghost predicate CallerOk(h: Shared, c: Caller) {
    && (forall x :: x in c.tries ==> x in h.installed)
    && match c.pc
       case Idle => |c.tries| <= 2 && Increasing(c.tries)
       case Fetching => c.tries == []
       case First(x) => c.tries == [x]
       case Checking(stale) => c.tries == [stale] && StaleOk(h, stale)
       case Dialling(stale) => c.tries == [stale] && StaleOk(h, stale)
       case Deciding(stale, spare) => c.tries == [stale] && StaleOk(h, stale) && PrivateTo(h, stale, spare)
       case Discarding(stale, spare, current) =>
         && c.tries == [stale] && StaleOk(h, stale) && PrivateTo(h, stale, spare)
         && current in h.installed && stale < current
       case Second(stale, x) => c.tries == [stale, x] && StaleOk(h, stale) && stale < x
  }

  ghost predicate PrivateTo(h: Shared, stale: Client, spare: Client) {
    stale < spare < h.dialled && spare !in h.installed && spare !in h.closes
  }

  ghost predicate CallersOk(s: State) {
    forall t :: t in s.callers ==> CallerOk(s.shared, s.callers[t])
  }

  ghost predicate HoldersDistinct(s: State) {
    forall t, u, c :: Holds(At(s, t).pc, c) && Holds(At(s, u).pc, c) ==> t == u
  }

  /** No client is lost: each is current, closed, or held by some caller. */
  ghost predicate NothingLost(s: State) {
    forall c :: 0 <= c < s.shared.dialled ==>
      c == s.shared.current || c in s.shared.closes || exists t :: Holds(At(s, t).pc, c)
  }

  ghost predicate Inv(s: State) {
    Sound(s.shared) && CallersOk(s) && HoldersDistinct(s) && NothingLost(s)
  }

  lemma IncreasingLast(q: seq<Client>, c: Client)
    requires Increasing(q) && c in q
    ensures c <= q[|q| - 1]
  {
  }

  /** What the steps of other callers may do to the shared state, as one caller sees it that holds
      the clients `mine` privately: the history only grows, and `mine` are left alone. */
  ghost predicate Rely(mine: set<Client>, a: Shared, b: Shared) {
    && a.dialled <= b.dialled && a.installed <= b.installed && a.closes <= b.closes && a.broken <= b.broken
    && (forall c :: c in mine ==> c !in b.installed && c !in b.closes)
  }

  lemma InstallSound(h: Shared, spare: Client)
    requires Sound(h) && h.current in h.broken && PrivateTo(h, h.current, spare)
    ensures Sound(Installed(h, spare))
  {
    var g := Installed(h, spare);
    assert forall c :: c in g.installed <==> c in h.installed || c == g.current;
    assert forall c :: c in g.closes <==> c in h.closes || c == h.current;
  }

  lemma SoundStep(s: State, t: nat, l: Label)
    requires Inv(s) && Enabled(s, t, l)
    ensures Sound(NextShared(s, t, l))
  {
    assert CallerOk(s.shared, At(s, t)) by { assert CallerOk(s.shared, Caller(Idle, [])); }
    var h := s.shared;
    if l.Decide? && h.current == At(s, t).pc.stale {
      InstallSound(h, At(s, t).pc.spare);
    }
  }

  lemma RelyStep(s: State, t: nat, l: Label, u: nat, mine: set<Client>)
    requires Inv(s) && Enabled(s, t, l) && t != u
    requires forall c :: c in mine ==> Holds(At(s, u).pc, c)
    ensures Rely(mine, s.shared, NextShared(s, t, l))
  {
    assert CallerOk(s.shared, At(s, t)) by { assert CallerOk(s.shared, Caller(Idle, [])); }
    assert CallerOk(s.shared, At(s, u)) by { assert CallerOk(s.shared, Caller(Idle, [])); }
    forall c | c in mine ensures !Holds(At(s, t).pc, c) {
    }
  }

  /** A caller's view survives whatever the others do. */
  lemma CallerStable(c: Caller, a: Shared, b: Shared)
    requires CallerOk(a, c) && Rely(Private(c.pc), a, b)
    ensures CallerOk(b, c)
  {
  }

  function Private(pc: Pc): set<Client> {
    if pc.Deciding? || pc.Discarding? then {pc.spare} else {}
  }

  lemma OwnStep(s: State, t: nat, l: Label)
    requires Inv(s) && Enabled(s, t, l)
    ensures CallerOk(NextShared(s, t, l), NextCaller(s, t, l))
  {
    assert CallerOk(s.shared, At(s, t)) by { assert CallerOk(s.shared, Caller(Idle, [])); }
    var h := s.shared;
    assert h.current in h.installed;
    if l.Check? {
      IncreasingLast(h.installed, At(s, t).pc.stale);
    } else if l.Decide? {
      IncreasingLast(h.installed, At(s, t).pc.stale);
      if h.current == At(s, t).pc.stale {
        var g := Installed(h, At(s, t).pc.spare);
        assert g.installed[|h.installed|] == g.current;
        assert forall c :: c in h.installed ==> c in g.installed;
      }
    }
  }

  lemma CallersStep(s: State, t: nat, l: Label)
    requires Inv(s) && Enabled(s, t, l)
    ensures CallersOk(Step(s, t, l))
  {
    OwnStep(s, t, l);
    forall u | u in s.callers && u != t ensures CallerOk(NextShared(s, t, l), s.callers[u]) {
      RelyStep(s, t, l, u, Private(s.callers[u].pc));
      CallerStable(s.callers[u], s.shared, NextShared(s, t, l));
    }
  }

  lemma HoldersStep(s: State, t: nat, l: Label)
    requires Inv(s) && Enabled(s, t, l)
    ensures HoldersDistinct(Step(s, t, l))
  {
    var s' := Step(s, t, l);
    assert forall u :: u != t ==> At(s', u) == At(s, u);
    forall u, c | u != t && Holds(At(s', u).pc, c) ensures !Holds(At(s', t).pc, c) {
      assert Holds(At(s, u).pc, c) && CallerOk(s.shared, s.callers[u]);
    }
  }

  lemma NothingLostStep(s: State, t: nat, l: Label)
    requires Inv(s) && Enabled(s, t, l)
    ensures NothingLost(Step(s, t, l))
  {
    var s' := Step(s, t, l);
    forall c | 0 <= c < s'.shared.dialled && c != s'.shared.current && c !in s'.shared.closes
      ensures exists u :: Holds(At(s', u).pc, c)
    {
      if l.DialSucceeds? && c == s.shared.dialled {
        assert Holds(At(s', t).pc, c);
      } else {
        assert s.shared.closes <= s'.shared.closes;
        var u :| Holds(At(s, u).pc, c);
        assert Holds(At(s', u).pc, c);
      }
    }
  }

  lemma InvStep(s: State, t: nat, l: Label)
    requires Inv(s) && Enabled(s, t, l)
    ensures Inv(Step(s, t, l))
  {
    SoundStep(s, t, l);
    CallersStep(s, t, l);
    HoldersStep(s, t, l);
    NothingLostStep(s, t, l);
  }

  lemma {:induction false} InvAlong(s: State, run: seq<Move>)
    requires Inv(s) && CanRun(s, run)
    ensures Inv(After(s, run))
    decreases |run|
  {
    if run != [] {
      InvStep(s, run[0].who, run[0].what);
      InvAlong(Step(s, run[0].who, run[0].what), run[1..]);
    }
  }

  lemma InvInit()
    ensures Inv(INIT)
  {
    assert INIT.shared.installed[0] == 0;
  }

  // ---------------------------------------------------------------- what follows

  function Times(q: seq<Client>, c: Client): nat {
    multiset(q)[c]
  }

  lemma {:induction false} DistinctTimes(q: seq<Client>, c: Client)
    requires Distinct(q)
    ensures Times(q, c) == if c in q then 1 else 0
    decreases |q|
  {
    if q != [] {
      var n := |q| - 1;
      assert q == q[..n] + [q[n]];
      DistinctTimes(q[..n], c);
    }
  }

  /** No connection leaks and none is closed twice: in every reachable state each client ever
      dialled is exactly one of current and open, closed exactly once, or open in the hands of
      exactly one caller that is reconnecting. */
  lemma NoLeak(run: seq<Move>, s: State, c: Client)
    requires CanRun(INIT, run) && After(INIT, run) == s && c < s.shared.dialled
    ensures c == s.shared.current ==> Times(s.shared.closes, c) == 0 && forall t :: !Holds(At(s, t).pc, c)
    ensures c != s.shared.current && (exists t :: Holds(At(s, t).pc, c)) ==> Times(s.shared.closes, c) == 0
    ensures c != s.shared.current && (forall t :: !Holds(At(s, t).pc, c)) ==> Times(s.shared.closes, c) == 1
    ensures forall t, u :: Holds(At(s, t).pc, c) && Holds(At(s, u).pc, c) ==> t == u
  {
    InvInit();
    InvAlong(INIT, run);
    DistinctTimes(s.shared.closes, c);
    assert s.shared.current in s.shared.installed;
    forall t | Holds(At(s, t).pc, c) ensures c != s.shared.current && c !in s.shared.closes {
      assert CallerOk(s.shared, s.callers[t]);
    }
  }

  predicate AllIdle(s: State) {
    forall t :: t in s.callers ==> s.callers[t].pc.Idle?
  }

  /** When no call is in flight, all but one of the clients ever dialled have been closed. */
  lemma OneOpenWhenIdle(run: seq<Move>, s: State)
    requires CanRun(INIT, run) && After(INIT, run) == s && AllIdle(s)
    ensures |s.shared.closes| == s.shared.dialled - 1
  {
    InvInit();
    InvAlong(INIT, run);
    var all := Below(s.shared.dialled);
    forall c | c in all && c != s.shared.current ensures c in s.shared.closes {
    }
    DistinctCovers(s.shared.closes, all - {s.shared.current});
  }

  function Below(n: nat): (all: set<Client>)
    ensures |all| == n && forall c :: c in all <==> 0 <= c < n
  {
    if n == 0 then {} else Below(n - 1) + {n - 1}
  }

  lemma {:induction false} DistinctCovers(q: seq<Client>, all: set<Client>)
    requires Distinct(q) && forall c :: c in q <==> c in all
    ensures |q| == |all|
    decreases |q|
  {
    if q == [] {
      assert all == {};
    } else {
      var n := |q| - 1;
      assert forall c :: c in q[..n] <==> c in q && c != q[n];
      DistinctCovers(q[..n], all - {q[n]});
    }
  }

  /** One winner per generation: the history of installed clients only grows and is strictly
      increasing, so a client is replaced at most once and never comes back; every client that was
      replaced had been seen shut down by some call first. */
  lemma OneWinnerPerGeneration(run: seq<Move>, s: State, more: seq<Move>, s': State)
    requires CanRun(INIT, run) && After(INIT, run) == s && CanRun(s, more) && After(s, more) == s'
    ensures s.shared.installed <= s'.shared.installed && Increasing(s'.shared.installed)
    ensures s'.shared.installed != [] && s'.shared.current == s'.shared.installed[|s'.shared.installed| - 1]
    ensures forall c :: c in s'.shared.installed && c != s'.shared.current ==> c in s'.shared.broken
    ensures s.shared.current != s'.shared.current ==>
              s.shared.current < s'.shared.current && s.shared.current in s'.shared.closes
  {
    InvInit();
    InvAlong(INIT, run);
    InvAlong(s, more);
    HistoryGrows(s, more);
    IncreasingLast(s'.shared.installed, s.shared.current);
  }

  lemma {:induction false} HistoryGrows(s: State, run: seq<Move>)
    requires CanRun(s, run)
    ensures s.shared.installed <= After(s, run).shared.installed
    decreases |run|
  {
    if run != [] {
      HistoryGrows(Step(s, run[0].who, run[0].what), run[1..]);
    }
  }

  /** One `call` issues its RPC at most twice, the second time on a strictly newer client, and only
      after the first attempt saw `ErrShutdown`. */
  lemma AtMostTwoAttempts(run: seq<Move>, s: State, t: nat)
    requires CanRun(INIT, run) && After(INIT, run) == s
    ensures var tries := At(s, t).tries;
            && |tries| <= 2 && Increasing(tries)
            && (forall x :: x in tries ==> x in s.shared.installed)
    ensures At(s, t).pc.Second? ==> At(s, t).pc.stale in s.shared.broken && At(s, t).pc.stale < At(s, t).pc.client
  {
    InvInit();
    InvAlong(INIT, run);
    assert CallerOk(s.shared, At(s, t)) by { assert CallerOk(s.shared, Caller(Idle, [])); }
  }

  /** While one caller takes no step, the others respect its `Rely` for as long as they run, and
      leave its own record alone. */
  lemma {:induction false} RelyAlong(s: State, run: seq<Move>, u: nat)
    requires Inv(s) && CanRun(s, run) && forall i :: 0 <= i < |run| ==> run[i].who != u
    ensures var s' := After(s, run);
            Inv(s') && At(s', u) == At(s, u) && Rely(Private(At(s, u).pc), s.shared, s'.shared)
    decreases |run|
  {
    if run == [] {
      assert CallerOk(s.shared, At(s, u)) by { assert CallerOk(s.shared, Caller(Idle, [])); }
    } else {
      var s1 := Step(s, run[0].who, run[0].what);
      InvStep(s, run[0].who, run[0].what);
      RelyStep(s, run[0].who, run[0].what, u, Private(At(s, u).pc));
      assert At(s1, u) == At(s, u);
      RelyAlong(s1, run[1..], u);
    }
  }

  // ---------------------------------------------------------------- how often the plugin is dialled

  lemma {:induction false} RunAppend(s: State, a: seq<Move>, b: seq<Move>)
    requires CanRun(s, a) && CanRun(After(s, a), b)
    ensures CanRun(s, a + b) && After(s, a + b) == After(After(s, a), b)
    decreases |a|
  {
    if a == [] {
      assert a + b == b;
    } else {
      assert (a + b)[1..] == a[1..] + b;
      RunAppend(Step(s, a[0].who, a[0].what), a[1..], b);
    }
  }

  /** One more step of a run. */
  lemma Then(run: seq<Move>, s: State, t: nat, l: Label) returns (run': seq<Move>, s': State)
    requires CanRun(INIT, run) && After(INIT, run) == s && Enabled(s, t, l)
    ensures run' == run + [Move(t, l)] && s' == Step(s, t, l)
    ensures CanRun(INIT, run') && After(INIT, run') == s'
    ensures forall u :: u != t ==> At(s', u) == At(s, u)
  {
    run', s' := run + [Move(t, l)], Step(s, t, l);
    assert CanRun(s', [Move(t, l)][1..]);
    RunAppend(INIT, run, [Move(t, l)]);
  }

  /** In this run some call gets `ErrShutdown` from its attempt on `c`. */
  ghost predicate SeesShutdown(s: State, run: seq<Move>, c: Client)
    requires CanRun(s, run)
    decreases |run|
  {
    run != [] &&
    ((run[0].what.FirstShutdown? && At(s, run[0].who).pc == First(c))
     || SeesShutdown(Step(s, run[0].who, run[0].what), run[1..], c))
  }

  /** The record of broken clients is what it says: those on which some call has seen `ErrShutdown`. */
  lemma {:induction false} BrokenMeans(s: State, run: seq<Move>, c: Client)
    requires CanRun(s, run)
    ensures c in After(s, run).shared.broken <==> c in s.shared.broken || SeesShutdown(s, run, c)
    decreases |run|
  {
    if run != [] {
      BrokenMeans(Step(s, run[0].who, run[0].what), run[1..], c);
    }
  }

  /** The client has been replaced. */
  predicate Replaced(h: Shared, c: Client) { c in h.installed && c != h.current }

  lemma ReplacedStep(s: State, t: nat, l: Label, c: Client)
    requires Inv(s) && Enabled(s, t, l) && Replaced(s.shared, c)
    ensures Replaced(NextShared(s, t, l), c)
    ensures NextCaller(s, t, l).pc == Dialling(c) ==> At(s, t).pc == Dialling(c)
  {
    assert CallerOk(s.shared, At(s, t)) by { assert CallerOk(s.shared, Caller(Idle, [])); }
    assert s.shared.installed <= NextShared(s, t, l).installed;
  }

  /** Whoever comes later uses the new client: once a client has been replaced, no caller begins to
      dial on its account any more, however the run goes on. */
  lemma {:induction false} NobodyDialsLater(s: State, more: seq<Move>, c: Client, t: nat)
    requires Inv(s) && CanRun(s, more) && Replaced(s.shared, c) && At(s, t).pc != Dialling(c)
    ensures At(After(s, more), t).pc != Dialling(c)
    decreases |more|
  {
    if more != [] {
      var s1 := Step(s, more[0].who, more[0].what);
      ReplacedStep(s, more[0].who, more[0].what, c);
      InvStep(s, more[0].who, more[0].what);
      assert more[0].who != t ==> At(s1, t) == At(s, t);
      NobodyDialsLater(s1, more[1..], c, t);
    }
  }

  /** The same from the start, with what the caller does instead: a caller that finds its client
      replaced issues its second attempt on the current one and dials nothing. */
  lemma LateCallerDoesNotDial(run: seq<Move>, s: State, t: nat)
    requires CanRun(INIT, run) && After(INIT, run) == s && At(s, t).pc.Checking?
    ensures var stale := At(s, t).pc.stale;
            var s' := Step(s, t, Check);
            && s'.shared == s.shared
            && (stale != s.shared.current ==>
                  && At(s', t).pc == Second(stale, s.shared.current)
                  && At(s', t).tries == [stale, s.shared.current] && stale < s.shared.current)
            && (stale == s.shared.current ==> At(s', t).pc == Dialling(stale))
  {
    InvInit();
    InvAlong(INIT, run);
    assert CallerOk(s.shared, s.callers[t]);
    IncreasingLast(s.shared.installed, At(s, t).pc.stale);
  }

  /** The first `n` callers have each dialled a replacement of the first client, and none has
      installed it yet. */
  ghost predicate Herd(s: State, n: nat) {
    && s.shared.current == 0 && s.shared.installed == [0] && s.shared.closes == [] && s.shared.dialled == n + 1
    && (forall t :: 0 <= t < n ==> At(s, t).pc == Deciding(0, t + 1))
    && (forall t :: n <= t ==> At(s, t) == Caller(Idle, []))
  }

  lemma OneMoreDials(run: seq<Move>, s: State, n: nat) returns (run': seq<Move>, s': State)
    requires CanRun(INIT, run) && After(INIT, run) == s && Herd(s, n)
    ensures CanRun(INIT, run') && After(INIT, run') == s' && Herd(s', n + 1)
  {
    run', s' := Then(run, s, n, Begin);
    run', s' := Then(run', s', n, Fetch);
    run', s' := Then(run', s', n, FirstShutdown);
    run', s' := Then(run', s', n, Check);
    run', s' := Then(run', s', n, DialSucceeds);
    assert forall t :: t != n ==> At(s', t) == At(s, t);
    assert At(s', n).pc == Deciding(0, n + 1);
  }

  /** The compare-and-swap does not keep callers from dialling together: any number of them may have
      dialled a replacement for the same client before one of them installs its own. */
  lemma {:induction false} HerdMayDial(n: nat) returns (run: seq<Move>, s: State)
    ensures CanRun(INIT, run) && After(INIT, run) == s && Herd(s, n)
  {
    if n == 0 {
      run, s := [], INIT;
    } else {
      run, s := HerdMayDial(n - 1);
      run, s := OneMoreDials(run, s, n - 1);
    }
  }

  /** In this step a caller comes to decide and finds that another has installed a client meanwhile. */
  predicate IsOvertaken(s: State, m: Move)
    requires Enabled(s, m.who, m.what)
  {
    m.what.Decide? && s.shared.current != At(s, m.who).pc.stale
  }

  function Overtaken(s: State, run: seq<Move>): nat
    requires CanRun(s, run)
    decreases |run|
  {
    if run == [] then 0
    else (if IsOvertaken(s, run[0]) then 1 else 0) + Overtaken(Step(s, run[0].who, run[0].what), run[1..])
  }

  /** The callers that have dialled and not yet decided. */
  function Undecided(s: State): set<nat> {
    set t | t in s.callers && s.callers[t].pc.Deciding?
  }

  /** The callers that still have to close the client they dialled. */
  function Overdue(s: State): set<nat> {
    set t | t in s.callers && s.callers[t].pc.Discarding?
  }

  lemma UndecidedStep(s: State, t: nat, l: Label)
    requires Enabled(s, t, l)
    ensures Undecided(Step(s, t, l))
         == if l.DialSucceeds? then Undecided(s) + {t} else if l.Decide? then Undecided(s) - {t} else Undecided(s)
    ensures t in Undecided(s) <==> l.Decide?
  {
  }

  lemma OverdueStep(s: State, t: nat, l: Label)
    requires Enabled(s, t, l)
    ensures Overdue(Step(s, t, l))
         == if IsOvertaken(s, Move(t, l)) then Overdue(s) + {t} else if l.Discard? then Overdue(s) - {t} else Overdue(s)
    ensures t in Overdue(s) <==> l.Discard?
  {
  }

  /** What is left when the clients installed and those in the hands of undecided callers are
      subtracted from those dialled. */
  function Spare(s: State): int { s.shared.dialled - |s.shared.installed| - |Undecided(s)| }

  function Unclosed(s: State): int { |s.shared.installed| - 1 - |s.shared.closes| - |Overdue(s)| }

  lemma SpareStep(s: State, m: Move)
    requires Enabled(s, m.who, m.what)
    ensures var s' := Step(s, m.who, m.what);
            var over := if IsOvertaken(s, m) then 1 else 0;
            Spare(s') == Spare(s) + over && Unclosed(s') == Unclosed(s) - over
  {
    UndecidedStep(s, m.who, m.what);
    OverdueStep(s, m.who, m.what);
  }

  lemma {:induction false} SpareAlong(s: State, run: seq<Move>)
    requires CanRun(s, run)
    ensures Spare(After(s, run)) == Spare(s) + Overtaken(s, run)
    ensures Unclosed(After(s, run)) == Unclosed(s) - Overtaken(s, run)
    decreases |run|
  {
    if run != [] {
      SpareStep(s, run[0]);
      SpareAlong(Step(s, run[0].who, run[0].what), run[1..]);
    }
  }

  /** The exact price of dialling outside the lock, over every run: one dial for each client ever
      installed, one for each caller still to decide, and one for each time a caller was overtaken;
      the latter are the clients closed without ever having been installed. */
  lemma DialsExactly(run: seq<Move>, s: State)
    requires CanRun(INIT, run) && After(INIT, run) == s
    ensures s.shared.dialled == |s.shared.installed| + |Undecided(s)| + Overtaken(INIT, run)
    ensures |s.shared.closes| + |Overdue(s)| == |s.shared.installed| - 1 + Overtaken(INIT, run)
  {
    assert Undecided(INIT) == {} && Overdue(INIT) == {};
    SpareAlong(INIT, run);
  }

  /** No caller of the run is ever overtaken. */
  ghost predicate NeverOvertaken(s: State, run: seq<Move>)
    requires CanRun(s, run)
    decreases |run|
  {
    run != [] ==> !IsOvertaken(s, run[0]) && NeverOvertaken(Step(s, run[0].who, run[0].what), run[1..])
  }

  lemma {:induction false} OvertakenNever(s: State, run: seq<Move>)
    requires CanRun(s, run)
    ensures Overtaken(s, run) == 0 <==> NeverOvertaken(s, run)
    decreases |run|
  {
    if run != [] {
      OvertakenNever(Step(s, run[0].who, run[0].what), run[1..]);
    }
  }

  /** Once no call is in flight, each generation has been dialled exactly once if and only if no caller
      ever came to decide after another had installed its client. */
  lemma OneDialPerGeneration(run: seq<Move>, s: State)
    requires CanRun(INIT, run) && After(INIT, run) == s && AllIdle(s)
    ensures s.shared.dialled == |s.shared.installed| <==> NeverOvertaken(INIT, run)
  {
    DialsExactly(run, s);
    OvertakenNever(INIT, run);
    assert Undecided(s) == {};
  }
}
