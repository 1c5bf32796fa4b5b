/** What holds of every request, whatever the plugins answer: the order of the calls, what must have
    been allowed before a provider is reached, and what is committed and reported. */
module ChatProperties {
  import opened Capabilities
  import opened Fallback
  import opened ChatModel
  import opened Sequences

  /** The documented place of an action in a request. */
  function Rank(x: Action): nat {
    match x
    case CallAuthenticate => 0
    case RequestStarted => 1
    case CallAuthorize => 2
    case CallPrompt => 3
    case CallLookup => 4
    case CacheHit(_) => 5
    case CallCheck => 6
    case CallRoute => 7
    case RouteSelected => 8
    case CallInvoke(_, _, _) => 9
    case UpstreamFailed(_) => 9
    case CallStore(_, _) => 10
    case CallCommit(_) => 11
    case RequestCompleted(_) => 12
    case RequestFailed => 12
    case CallObserver(_) => 13
  }

  /** Only attempts and blocking observers may come more than once. */
  predicate Repeats(rank: nat) { rank == 9 || rank == 13 }

  /** All ranks lie in `[lo, hi)`, none goes down, and only repeatable ones stay level. */
  ghost predicate Ordered(log: seq<Action>, lo: nat, hi: nat) {
    && (forall i :: 0 <= i < |log| ==> lo <= Rank(log[i]) < hi)
    && (forall i, j :: 0 <= i < j < |log| ==>
          Rank(log[i]) < Rank(log[j]) || (Rank(log[i]) == Rank(log[j]) && Repeats(Rank(log[i]))))
  }

  lemma OrderedMember(log: seq<Action>, lo: nat, hi: nat, x: Action)
    requires Ordered(log, lo, hi) && x in log
    ensures lo <= Rank(x) < hi
  {
    var i :| 0 <= i < |log| && log[i] == x;
  }

  lemma OrderedAppend(a: seq<Action>, b: seq<Action>, lo: nat, mid: nat, hi: nat)
    requires lo <= mid <= hi && Ordered(a, lo, mid) && Ordered(b, mid, hi)
    ensures Ordered(a + b, lo, hi)
  {
    forall i, j | 0 <= i < j < |a + b|
      ensures var x, y := (a + b)[i], (a + b)[j];
              Rank(x) < Rank(y) || (Rank(x) == Rank(y) && Repeats(Rank(x)))
    {
      if j < |a| {
        assert Rank(a[i]) < Rank(a[j]) || Rank(a[i]) == Rank(a[j]);
      } else if i >= |a| {
        assert Rank(b[i - |a|]) < Rank(b[j - |a|]) || Rank(b[i - |a|]) == Rank(b[j - |a|]);
      } else {
        assert Rank(a[i]) < mid <= Rank(b[j - |a|]);
      }
    }
  }

  /** Reading two tables one after the other keeps the order, wherever the reading ends. */
  lemma StagesAppend(a: seq<Stage>, b: seq<Stage>, lo: nat, mid: nat, hi: nat)
    requires lo <= mid <= hi && Ordered(ShortCircuit(a).0, lo, mid) && Ordered(ShortCircuit(b).0, mid, hi)
    ensures Ordered(ShortCircuit(a + b).0, lo, hi)
  {
    ShortCircuitAppend(a, b);
    OrderedAppend(ShortCircuit(a).0, ShortCircuit(b).0, lo, mid, hi);
  }

  lemma OneStage(s: Stage, lo: nat, hi: nat)
    requires Ordered(s.actions, lo, hi)
    ensures Ordered(ShortCircuit([s]).0, lo, hi)
  {
    assert ShortCircuit([s][1..]).0 == [];
    assert s.actions + [] == s.actions;
  }

  lemma IdentityStagesOrdered(st: Settings, a: Answers)
    ensures Ordered(ShortCircuit(AuthnStage(st, a) + [Stage([RequestStarted], None)] + AuthzStage(st, a)).0, 0, 3)
  {
    var authn, started, authz := AuthnStage(st, a), [Stage([RequestStarted], None)], AuthzStage(st, a);
    OneStage(started[0], 1, 2);
    if authn != [] { OneStage(authn[0], 0, 1); }
    if authz != [] { OneStage(authz[0], 2, 3); }
    StagesAppend(authn, started, 0, 1, 2);
    StagesAppend(authn + started, authz, 0, 2, 3);
  }

  lemma LookupStageOrdered(st: Settings, req: Request, a: Answers)
    ensures Ordered(ShortCircuit(LookupStage(st, req, a)).0, 4, 6)
  {
    var lookup := LookupStage(st, req, a);
    if lookup != [] {
      OneStage(lookup[0], 4, 6);
      assert lookup == [lookup[0]];
    }
  }

  lemma AtMostOneStage(stages: seq<Stage>, lo: nat, hi: nat)
    requires |stages| <= 1 && (stages != [] ==> Ordered(stages[0].actions, lo, hi))
    ensures Ordered(ShortCircuit(stages).0, lo, hi)
  {
    if stages != [] {
      OneStage(stages[0], lo, hi);
      assert stages == [stages[0]];
    }
  }

  lemma UpToPromptOrdered(st: Settings, a: Answers)
    ensures Ordered(ShortCircuit(IdentityStages(st, a)).0, 0, 4)
  {
    var identity := AuthnStage(st, a) + [Stage([RequestStarted], None)] + AuthzStage(st, a);
    IdentityStagesOrdered(st, a);
    AtMostOneStage(PromptStage(st, a), 3, 4);
    StagesAppend(identity, PromptStage(st, a), 0, 3, 4);
  }

  lemma RouteStageOrdered(a: Answers)
    ensures Ordered(ShortCircuit(RouteStage(a)).0, 7, 9)
  {
    var route := RouteStage(a);
    OneStage(route[0], 7, 8);
    OneStage(route[1], 8, 9);
    assert route == [route[0]] + [route[1]];
    StagesAppend([route[0]], [route[1]], 7, 8, 9);
  }

  /** The rows that come after the cache. */
  function AfterLookup(st: Settings, a: Answers): seq<Stage> {
    CheckStage(st, a) + ModelStage(a) + RouteStage(a)
  }

  lemma AfterLookupOrdered(st: Settings, a: Answers)
    ensures Ordered(ShortCircuit(AfterLookup(st, a)).0, 6, 9)
  {
    AtMostOneStage(CheckStage(st, a), 6, 7);
    AtMostOneStage(ModelStage(a), 7, 7);
    RouteStageOrdered(a);
    StagesAppend(CheckStage(st, a), ModelStage(a), 6, 7, 7);
    StagesAppend(CheckStage(st, a) + ModelStage(a), RouteStage(a), 6, 7, 9);
  }

  lemma PlanSplits(st: Settings, req: Request, a: Answers)
    ensures PlanStages(st, req, a) == LookupStage(st, req, a) + AfterLookup(st, a)
  {
  }

  lemma StagesOrdered(st: Settings, req: Request, a: Answers)
    ensures Ordered(ShortCircuit(Stages(st, req, a)).0, 0, 9)
  {
    TwoHalves(st, req, a);
    PlanSplits(st, req, a);
    UpToPromptOrdered(st, a);
    LookupStageOrdered(st, req, a);
    AfterLookupOrdered(st, a);
    StagesAppend(LookupStage(st, req, a), AfterLookup(st, a), 4, 6, 9);
    StagesAppend(IdentityStages(st, a), PlanStages(st, req, a), 0, 4, 9);
  }

  lemma {:induction false} AttemptsRank(routes: seq<Route>, os: seq<Outcome>, messages: seq<string>, n: nat)
    requires n <= |os| <= |routes|
    ensures forall x :: x in AttemptLog(routes, os, messages, n) ==> Rank(x) == 9
  {
    if n > 0 {
      AttemptsRank(routes, os, messages, n - 1);
    }
  }

  lemma AttemptsOrdered(routes: seq<Route>, os: seq<Outcome>, messages: seq<string>, n: nat)
    requires n <= |os| <= |routes|
    ensures Ordered(AttemptLog(routes, os, messages, n), 9, 10)
  {
    AttemptsRank(routes, os, messages, n);
    var log := AttemptLog(routes, os, messages, n);
    assert forall i :: 0 <= i < |log| ==> log[i] in log;
  }

  lemma {:induction false} ObserversOrdered(fails: nat -> bool, n: nat, k: nat)
    requires k <= n
    ensures Ordered(ObserverLog(fails, n, k), 13, 14)
    decreases n - k
  {
    if k < n {
      ObserversOrdered(fails, n, k + 1);
    }
  }

  lemma BookkeepingOrdered(st: Settings, content: string, usage: Usage)
    ensures Ordered(Books(st, content, usage), 10, 12)
  {
  }

  lemma NewsOrdered(st: Settings, usage: Usage, a: Answers)
    ensures Ordered(News(st, usage, a), 12, 14)
  {
    ObserversOrdered(a.observerFails, |st.blocking|, 0);
    OrderedAppend([RequestCompleted(usage)], ObserverLog(a.observerFails, |st.blocking|, 0), 12, 13, 14);
  }

  lemma SuccessOrdered(st: Settings, chunks: seq<ResponseChunk>, a: Answers)
    ensures Ordered(SuccessLog(st, chunks, a), 10, 14)
  {
    var usage := LastUsage(NO_USAGE, chunks);
    BookkeepingOrdered(st, TextOf(chunks), usage);
    NewsOrdered(st, usage, a);
    OrderedAppend(Books(st, TextOf(chunks), usage), News(st, usage, a), 10, 12, 14);
  }

  lemma AftermathOrdered(st: Settings, os: seq<Outcome>, stream: bool, a: Answers)
    ensures Ordered(Aftermath(st, os, stream, a), 10, 14)
  {
    if Walk(os, 0).WonAt? {
      SuccessOrdered(st, Chunks(a.invoke(Walk(os, 0).index)), a);
    }
  }

  lemma RunOrdered(st: Settings, routes: seq<Route>, messages: seq<string>, stream: bool, a: Answers)
    ensures Ordered(RunLog(st, routes, messages, stream, a), 9, 14)
  {
    var os := Outcomes(st, routes, stream, a);
    AttemptsOrdered(routes, os, messages, Visited(os));
    AftermathOrdered(st, os, stream, a);
    OrderedAppend(AttemptLog(routes, os, messages, Visited(os)), Aftermath(st, os, stream, a), 9, 10, 14);
  }

  /** Whatever plugins answer, the actions of a request come in the documented order, and all but
      the attempts and the blocking observers at most once. */
  lemma CallsInOrder(st: Settings, req: Request, a: Answers)
    ensures Ordered(ChatLog(st, req, a), 0, 14)
  {
    if st.missing == [] {
      StagesOrdered(st, req, a);
      RunOrdered(st, Routed(a), Messages(st, req, a), req.stream, a);
      OrderedAppend(ShortCircuit(Stages(st, req, a)).0,
                    RunLog(st, Routed(a), Messages(st, req, a), req.stream, a), 0, 9, 14);
    }
  }

  // ---------------------------------------------------------------- gating

  /** Every gate that is configured lets the request through, and the router names a route. */
  predicate GatesOpen(st: Settings, req: Request, a: Answers) {
    && (st.anonymous || a.authn.Allows?) && (st.authz.Some? ==> a.authz.Allows?)
    && (st.prompt.Some? ==> a.prompt.Prompt?) && !CacheAnswers(st, req, a)
    && (st.ratelimit.Some? ==> a.check.Allows?)
    && a.modelKnown && a.route.Routes? && a.route.routes != []
  }

  predicate CacheAnswers(st: Settings, req: Request, a: Answers) {
    st.cache.Some? && !req.stream && a.lookup.Hit?
  }

  lemma StageMembers(st: Settings, req: Request, a: Answers, s: Stage)
    ensures s in Stages(st, req, a) <==>
              || s in AuthnStage(st, a) || s == Stage([RequestStarted], None) || s in AuthzStage(st, a)
              || s in PromptStage(st, a) || s in LookupStage(st, req, a) || s in CheckStage(st, a)
              || s in ModelStage(a) || s in RouteStage(a)
  {
  }

  /** The table is read to its end exactly when every gate is open. */
  lemma GatesDecide(st: Settings, req: Request, a: Answers)
    ensures ShortCircuit(Stages(st, req, a)).1.None? <==> GatesOpen(st, req, a)
  {
    ShortCircuitPasses(Stages(st, req, a));
    forall s { StageMembers(st, req, a, s); }
    assert !st.anonymous ==> AuthnStage(st, a)[0] in Stages(st, req, a);
    assert st.authz.Some? ==> AuthzStage(st, a)[0] in Stages(st, req, a);
    assert st.prompt.Some? ==> PromptStage(st, a)[0] in Stages(st, req, a);
    assert CacheAnswers(st, req, a) ==> LookupStage(st, req, a)[0] in Stages(st, req, a);
    assert st.ratelimit.Some? ==> CheckStage(st, a)[0] in Stages(st, req, a);
    assert ModelStage(a)[0] in Stages(st, req, a) && RouteStage(a)[0] in Stages(st, req, a);
  }

  /** A provider is tried, or anything after that happens, exactly when the pipeline is ready and
      every configured gate is open; each of those gates has then been asked, before. */
  lemma ProvidersBehindGates(st: Settings, req: Request, a: Answers)
    ensures (exists x :: x in ChatLog(st, req, a) && Rank(x) >= 9) <==> st.missing == [] && GatesOpen(st, req, a)
    ensures st.missing == [] && GatesOpen(st, req, a) ==>
              var log := ChatLog(st, req, a);
              && (!st.anonymous ==> CallAuthenticate in log) && (st.authz.Some? ==> CallAuthorize in log)
              && (st.prompt.Some? ==> CallPrompt in log) && (st.ratelimit.Some? ==> CallCheck in log)
              && (st.cache.Some? && !req.stream ==> CallLookup in log) && CallRoute in log
  {
    GatesDecide(st, req, a);
    StagesOrdered(st, req, a);
    if st.missing == [] && GatesOpen(st, req, a) {
      AllGatesAsked(st, req, a);
      RunOrdered(st, Routed(a), Messages(st, req, a), req.stream, a);
      RunDoesSomething(st, Routed(a), Messages(st, req, a), req.stream, a);
      var run := RunLog(st, Routed(a), Messages(st, req, a), req.stream, a);
      assert run[0] in ChatLog(st, req, a);
    }
  }

  lemma AllGatesAsked(st: Settings, req: Request, a: Answers)
    requires GatesOpen(st, req, a)
    ensures var log := ShortCircuit(Stages(st, req, a)).0;
            && (!st.anonymous ==> CallAuthenticate in log) && (st.authz.Some? ==> CallAuthorize in log)
            && (st.prompt.Some? ==> CallPrompt in log) && (st.ratelimit.Some? ==> CallCheck in log)
            && (st.cache.Some? && !req.stream ==> CallLookup in log) && CallRoute in log
  {
    GatesDecide(st, req, a);
    var stages := Stages(st, req, a);
    ShortCircuitPasses(stages);
    if !st.anonymous { assert AuthnStage(st, a)[0] in stages; assert CallAuthenticate in AuthnStage(st, a)[0].actions; }
    if st.authz.Some? { assert AuthzStage(st, a)[0] in stages; assert CallAuthorize in AuthzStage(st, a)[0].actions; }
    if st.prompt.Some? { assert PromptStage(st, a)[0] in stages; assert CallPrompt in PromptStage(st, a)[0].actions; }
    if st.ratelimit.Some? { assert CheckStage(st, a)[0] in stages; assert CallCheck in CheckStage(st, a)[0].actions; }
    if st.cache.Some? && !req.stream {
      assert LookupStage(st, req, a)[0] in stages;
      assert CallLookup in LookupStage(st, req, a)[0].actions;
    }
    assert RouteStage(a)[0] in stages;
    assert CallRoute in RouteStage(a)[0].actions;
  }

  lemma RunDoesSomething(st: Settings, routes: seq<Route>, messages: seq<string>, stream: bool, a: Answers)
    ensures RunLog(st, routes, messages, stream, a) != []
  {
    WalkFrom(Outcomes(st, routes, stream, a), 0);
  }

  /** What is read of the table when the cache answers. */
  function UpToLookup(st: Settings, req: Request, a: Answers): seq<Stage> {
    IdentityStages(st, a) + LookupStage(st, req, a)
  }

  lemma UpToLookupOrdered(st: Settings, req: Request, a: Answers)
    ensures Ordered(ShortCircuit(UpToLookup(st, req, a)).0, 0, 6)
  {
    UpToPromptOrdered(st, a);
    LookupStageOrdered(st, req, a);
    StagesAppend(IdentityStages(st, a), LookupStage(st, req, a), 0, 4, 6);
  }

  lemma HitEndsStages(st: Settings, req: Request, a: Answers)
    requires CacheAnswers(st, req, a)
    ensures ShortCircuit(Stages(st, req, a)) == ShortCircuit(UpToLookup(st, req, a))
  {
    var upTo, rest := UpToLookup(st, req, a), AfterLookup(st, a);
    assert LookupStage(st, req, a)[0] in upTo;
    ShortCircuitPasses(upTo);
    ShortCircuitAppend(upTo, rest);
    assert Stages(st, req, a) == upTo + rest;
  }

  /** A cache hit is the last thing that happens: no check, route, attempt, store, commit or later
      event; and there is a hit only where a cache is configured, for a request that does not stream. */
  lemma CacheHitEndsRequest(st: Settings, req: Request, a: Answers)
    ensures CacheAnswers(st, req, a) ==> forall x :: x in ChatLog(st, req, a) ==> Rank(x) <= 5
    ensures (exists u :: CacheHit(u) in ChatLog(st, req, a)) ==> CacheAnswers(st, req, a)
  {
    if CacheAnswers(st, req, a) {
      GatesDecide(st, req, a);
      HitEndsStages(st, req, a);
      UpToLookupOrdered(st, req, a);
    } else {
      NoHitInStages(st, req, a);
      NoHitInRun(st, Routed(a), Messages(st, req, a), req.stream, a);
    }
  }

  lemma OutOfRange(log: seq<Action>, lo: nat, hi: nat, x: Action)
    requires Ordered(log, lo, hi) && !(lo <= Rank(x) < hi)
    ensures x !in log
  {
  }

  lemma LookupStageLooksUp(st: Settings, req: Request, a: Answers)
    ensures CallLookup in ShortCircuit(LookupStage(st, req, a)).0 <==> st.cache.Some? && !req.stream
    ensures ShortCircuit(LookupStage(st, req, a)).1.None? <==> !CacheAnswers(st, req, a)
  {
    var lookup := LookupStage(st, req, a);
    if lookup != [] {
      assert lookup[0].actions[0] == CallLookup && lookup == [lookup[0]];
    }
  }

  lemma RestHasNoCheck(a: Answers)
    ensures CallCheck !in ShortCircuit(ModelStage(a) + RouteStage(a)).0
  {
    AtMostOneStage(ModelStage(a), 7, 7);
    RouteStageOrdered(a);
    StagesAppend(ModelStage(a), RouteStage(a), 7, 7, 9);
    OutOfRange(ShortCircuit(ModelStage(a) + RouteStage(a)).0, 7, 9, CallCheck);
  }

  lemma CheckStageChecks(st: Settings, a: Answers)
    ensures CallCheck in ShortCircuit(AfterLookup(st, a)).0 <==> st.ratelimit.Some?
  {
    var check, rest := CheckStage(st, a), ModelStage(a) + RouteStage(a);
    RestHasNoCheck(a);
    assert AfterLookup(st, a) == check + rest;
    ShortCircuitAppend(check, rest);
    if check != [] {
      assert check[0].actions[0] == CallCheck && check == [check[0]];
    }
  }

  lemma PlanLooksUp(st: Settings, req: Request, a: Answers)
    ensures CallLookup in ShortCircuit(PlanStages(st, req, a)).0 <==> st.cache.Some? && !req.stream
  {
    LookupStageLooksUp(st, req, a);
    AfterLookupOrdered(st, a);
    OutOfRange(ShortCircuit(AfterLookup(st, a)).0, 6, 9, CallLookup);
    PlanSplits(st, req, a);
    ShortCircuitAppend(LookupStage(st, req, a), AfterLookup(st, a));
  }

  lemma PlanChecks(st: Settings, req: Request, a: Answers)
    ensures CallCheck in ShortCircuit(PlanStages(st, req, a)).0 <==> st.ratelimit.Some? && !CacheAnswers(st, req, a)
  {
    LookupStageLooksUp(st, req, a);
    LookupStageOrdered(st, req, a);
    OutOfRange(ShortCircuit(LookupStage(st, req, a)).0, 4, 6, CallCheck);
    CheckStageChecks(st, a);
    PlanSplits(st, req, a);
    ShortCircuitAppend(LookupStage(st, req, a), AfterLookup(st, a));
  }

  /** The cache is asked exactly if the request gets as far, one is configured and it does not stream;
      the rate limiter exactly if the request gets as far, one is configured and the cache did not answer. */
  lemma WhenAsked(st: Settings, req: Request, a: Answers)
    ensures var log := ChatLog(st, req, a);
            var identified := st.missing == [] && ShortCircuit(IdentityStages(st, a)).1.None?;
            && (CallLookup in log <==> identified && st.cache.Some? && !req.stream)
            && (CallCheck in log <==> identified && st.ratelimit.Some? && !CacheAnswers(st, req, a))
  {
    TwoHalves(st, req, a);
    ShortCircuitAppend(IdentityStages(st, a), PlanStages(st, req, a));
    IdentityAsksNeither(st, a);
    PlanLooksUp(st, req, a);
    PlanChecks(st, req, a);
    RunAsksNeither(st, Routed(a), Messages(st, req, a), req.stream, a);
  }

  lemma IdentityAsksNeither(st: Settings, a: Answers)
    ensures CallLookup !in ShortCircuit(IdentityStages(st, a)).0 && CallCheck !in ShortCircuit(IdentityStages(st, a)).0
  {
    UpToPromptOrdered(st, a);
    OutOfRange(ShortCircuit(IdentityStages(st, a)).0, 0, 4, CallLookup);
    OutOfRange(ShortCircuit(IdentityStages(st, a)).0, 0, 4, CallCheck);
  }

  lemma RunAsksNeither(st: Settings, routes: seq<Route>, messages: seq<string>, stream: bool, a: Answers)
    ensures CallLookup !in RunLog(st, routes, messages, stream, a)
    ensures CallCheck !in RunLog(st, routes, messages, stream, a)
  {
    RunOrdered(st, routes, messages, stream, a);
    OutOfRange(RunLog(st, routes, messages, stream, a), 9, 14, CallLookup);
    OutOfRange(RunLog(st, routes, messages, stream, a), 9, 14, CallCheck);
  }

  lemma NoHitInRun(st: Settings, routes: seq<Route>, messages: seq<string>, stream: bool, a: Answers)
    ensures forall u :: CacheHit(u) !in RunLog(st, routes, messages, stream, a)
  {
    RunOrdered(st, routes, messages, stream, a);
  }

  lemma NoHitInStages(st: Settings, req: Request, a: Answers)
    requires !CacheAnswers(st, req, a)
    ensures forall u :: CacheHit(u) !in ShortCircuit(Stages(st, req, a)).0
  {
    ShortCircuitPasses(Stages(st, req, a));
    forall s, u | s in Stages(st, req, a) ensures CacheHit(u) !in s.actions {
      StageMembers(st, req, a, s);
    }
  }

  // ---------------------------------------------------------------- attempts

  /** The routes that were tried, in order. */
  function Invoked(log: seq<Action>): seq<nat> {
    if log == [] then [] else Tried(log[0]) + Invoked(log[1..])
  }

  function Tried(x: Action): seq<nat> {
    if x.CallInvoke? then [x.index] else []
  }

  lemma {:induction false} InvokedAppend(a: seq<Action>, b: seq<Action>)
    ensures Invoked(a + b) == Invoked(a) + Invoked(b)
  {
    if a == [] {
      assert a + b == b;
    } else {
      assert (a + b)[1..] == a[1..] + b;
      InvokedAppend(a[1..], b);
      Associative(Tried(a[0]), Invoked(a[1..]), Invoked(b));
    }
  }

  lemma {:induction false} InvokedNone(log: seq<Action>)
    requires forall x :: x in log ==> !x.CallInvoke?
    ensures Invoked(log) == []
  {
    if log != [] {
      assert log[0] in log;
      InvokedNone(log[1..]);
    }
  }

  lemma {:induction false} AttemptsInvoke(routes: seq<Route>, os: seq<Outcome>, messages: seq<string>, n: nat)
    requires n <= |os| <= |routes|
    ensures Invoked(AttemptLog(routes, os, messages, n)) == Configured(os, n)
  {
    if n > 0 {
      AttemptsInvoke(routes, os, messages, n - 1);
      OneAttemptInvokes(routes[n - 1], os[n - 1], messages, n - 1);
      InvokedJoin(AttemptLog(routes, os, messages, n - 1), AttemptActions(routes[n - 1], os[n - 1], messages, n - 1),
                  Configured(os, n - 1), if os[n - 1].Skipped? then [] else [n - 1]);
    }
  }

  lemma InvokedJoin(a: seq<Action>, b: seq<Action>, tried: seq<nat>, more: seq<nat>)
    requires Invoked(a) == tried && Invoked(b) == more
    ensures Invoked(a + b) == tried + more
  {
    InvokedAppend(a, b);
  }

  lemma OneAttemptInvokes(route: Route, o: Outcome, messages: seq<string>, i: nat)
    ensures Invoked(AttemptActions(route, o, messages, i)) == if o.Skipped? then [] else [i]
  {
    if !o.Skipped? {
      var rest := AttemptActions(route, o, messages, i)[1..];
      assert rest == if o.Won? then [] else [UpstreamFailed(i)];
      InvokedNone(rest);
    }
  }

  lemma LaterInvokesNone(log: seq<Action>, lo: nat, hi: nat)
    requires Ordered(log, lo, hi) && lo >= 10
    ensures Invoked(log) == []
  {
    forall x | x in log ensures !x.CallInvoke? {
      OrderedMember(log, lo, hi, x);
    }
    InvokedNone(log);
  }

  /** The providers invoked are exactly the configured routes up to the stop point, in order. */
  lemma RunInvokes(st: Settings, routes: seq<Route>, messages: seq<string>, stream: bool, a: Answers)
    ensures var os := Outcomes(st, routes, stream, a);
            Invoked(RunLog(st, routes, messages, stream, a)) == Configured(os, Visited(os))
  {
    var os := Outcomes(st, routes, stream, a);
    AttemptsInvoke(routes, os, messages, Visited(os));
    AftermathOrdered(st, os, stream, a);
    LaterInvokesNone(Aftermath(st, os, stream, a), 10, 14);
    InvokedAppend(AttemptLog(routes, os, messages, Visited(os)), Aftermath(st, os, stream, a));
  }
}
