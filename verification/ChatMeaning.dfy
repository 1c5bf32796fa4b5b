/** What a chat request comes to, gate by gate (internal/pipeline/pipeline.go), read off the plugins'
    answers: everything that has been done by the time a gate closes, and how the request then ends. */
module ChatMeaning {
  import opened Capabilities
  import opened Fallback
  import opened ChatModel
  import opened ChatProperties

  /** The rows read so far all let the request through; then comes at most one more. */
  lemma ReadOn(done: seq<Stage>, log: seq<Action>, rows: seq<Stage>)
    requires ShortCircuit(done) == (log, None) && |rows| <= 1
    ensures ShortCircuit(done + rows) == if rows == [] then (log, None) else (log + rows[0].actions, rows[0].ending)
  {
    if rows == [] {
      assert done + rows == done;
    } else {
      OneMoreRow(done, rows[0]);
      assert rows == [rows[0]];
    }
  }

  lemma ReadFirst(rows: seq<Stage>)
    requires |rows| <= 1
    ensures ShortCircuit(rows) == if rows == [] then ([], None) else (rows[0].actions, rows[0].ending)
  {
    if rows != [] {
      assert rows == [rows[0]] && rows[1..] == [];
      assert rows[0].actions + [] == rows[0].actions;
    }
  }

  function UpToAuthz(st: Settings, a: Answers): seq<Stage> {
    AuthnStage(st, a) + [Stage([RequestStarted], None)] + AuthzStage(st, a)
  }

  lemma ReadAuthn(st: Settings, a: Answers)
    ensures !st.anonymous && !a.authn.Allows? ==>
              ShortCircuit(AuthnStage(st, a))
              == ([CallAuthenticate],
                  Some(Refused(AuthenticationFailed(match a.authn
                                                    case Denies(reason) => reason
                                                    case Fails(Plain(message)) => message
                                                    case Fails(Upstream(u)) => u.message
                                                    case Allows => ""))))
    ensures st.anonymous || a.authn.Allows? ==>
              ShortCircuit(AuthnStage(st, a)) == (if st.anonymous then [] else [CallAuthenticate], None)
  {
    ReadFirst(AuthnStage(st, a));
  }

  lemma ReadAuthz(st: Settings, a: Answers)
    requires st.anonymous || a.authn.Allows?
    ensures var log := (if st.anonymous then [] else [CallAuthenticate]) + [RequestStarted];
            ShortCircuit(UpToAuthz(st, a))
            == if st.authz.None? then (log, None)
               else (log + [CallAuthorize], match a.authz
                                            case Allows => None
                                            case Denies(reason) => Some(Refused(AuthorizationDenied(reason)))
                                            case Fails(e) => Some(Refused(PluginFailed(e))))
  {
    var ask := if st.anonymous then [] else [CallAuthenticate];
    ReadAuthn(st, a);
    ReadOn(AuthnStage(st, a), ask, [Stage([RequestStarted], None)]);
    ReadOn(AuthnStage(st, a) + [Stage([RequestStarted], None)], ask + [RequestStarted], AuthzStage(st, a));
  }

  /** The caller has been let in. */
  predicate Admitted(st: Settings, a: Answers) {
    (st.anonymous || a.authn.Allows?) && (st.authz.None? || a.authz.Allows?)
  }

  function EntryLog(st: Settings): seq<Action> {
    (if st.anonymous then [] else [CallAuthenticate]) + [RequestStarted]
    + if st.authz.None? then [] else [CallAuthorize]
  }

  lemma ReadPrompt(st: Settings, a: Answers)
    requires Admitted(st, a)
    ensures ShortCircuit(IdentityStages(st, a))
         == if st.prompt.None? then (EntryLog(st), None)
            else (EntryLog(st) + [CallPrompt],
                  if a.prompt.PromptFails? then Some(Refused(PluginFailed(a.prompt.error))) else None)
  {
    ReadAuthz(st, a);
    var log := (if st.anonymous then [] else [CallAuthenticate]) + [RequestStarted];
    assert st.authz.None? ==> EntryLog(st) == log;
    ReadOn(UpToAuthz(st, a), EntryLog(st), PromptStage(st, a));
  }

  /** A request that does not get past authentication, authorization or the prompt. */
  lemma EntryRefused(st: Settings, req: Request, a: Answers)
    requires st.missing == [] && ShortCircuit(IdentityStages(st, a)).1.Some?
    ensures ShortCircuit(Stages(st, req, a)) == ShortCircuit(IdentityStages(st, a))
    ensures ChatLog(st, req, a) == ShortCircuit(IdentityStages(st, a)).0
  {
    TwoHalves(st, req, a);
    RestUnread(IdentityStages(st, a), PlanStages(st, req, a));
  }

  /** Failed authentication: nothing else happens, not even an event, and the error is the plugin's
      reason, or the text of its error. */
  lemma AuthenticationRefuses(st: Settings, req: Request, a: Answers)
    requires st.missing == [] && !st.anonymous && !a.authn.Allows?
    ensures ChatLog(st, req, a) == [CallAuthenticate]
    ensures ShortCircuit(Stages(st, req, a)).1
         == Some(Refused(AuthenticationFailed(match a.authn
                                              case Denies(reason) => reason
                                              case Fails(Plain(message)) => message
                                              case Fails(Upstream(u)) => u.message
                                              case Allows => "")))
  {
    ReadAuthn(st, a);
    var rest := [Stage([RequestStarted], None)] + AuthzStage(st, a) + PromptStage(st, a);
    assert IdentityStages(st, a) == AuthnStage(st, a) + rest;
    RestUnread(AuthnStage(st, a), rest);
    EntryRefused(st, req, a);
  }

  lemma AuthorizationRefuses(st: Settings, req: Request, a: Answers)
    requires st.missing == [] && (st.anonymous || a.authn.Allows?) && st.authz.Some? && !a.authz.Allows?
    ensures ChatLog(st, req, a)
         == (if st.anonymous then [] else [CallAuthenticate]) + [RequestStarted] + [CallAuthorize]
    ensures ShortCircuit(Stages(st, req, a)).1
         == Some(Refused(match a.authz
                         case Denies(reason) => AuthorizationDenied(reason)
                         case Fails(e) => PluginFailed(e)
                         case Allows => NoRouteAvailable))
  {
    ReadAuthz(st, a);
    RestUnread(UpToAuthz(st, a), PromptStage(st, a));
    EntryRefused(st, req, a);
  }

  lemma PromptRefuses(st: Settings, req: Request, a: Answers)
    requires st.missing == [] && (st.anonymous || a.authn.Allows?) && (st.authz.None? || a.authz.Allows?)
    requires st.prompt.Some? && a.prompt.PromptFails?
    ensures ChatLog(st, req, a)
         == (if st.anonymous then [] else [CallAuthenticate]) + [RequestStarted]
            + (if st.authz.None? then [] else [CallAuthorize]) + [CallPrompt]
    ensures ShortCircuit(Stages(st, req, a)).1 == Some(Refused(PluginFailed(a.prompt.error)))
  {
    ReadPrompt(st, a);
    EntryRefused(st, req, a);
  }

  /** Everything done before the cache is asked. */
  function IdentifiedLog(st: Settings): seq<Action> {
    EntryLog(st) + if st.prompt.None? then [] else [CallPrompt]
  }

  /** The request is past authentication, authorization and the prompt exactly if those that are
      configured allow it. */
  lemma IdentifiedMeans(st: Settings, a: Answers)
    ensures ShortCircuit(IdentityStages(st, a)).1.None? <==>
              && (st.anonymous || a.authn.Allows?) && (st.authz.None? || a.authz.Allows?)
              && (st.prompt.None? || a.prompt.Prompt?)
    ensures ShortCircuit(IdentityStages(st, a)).1.None? ==>
              ShortCircuit(IdentityStages(st, a)).0
              == (if st.anonymous then [] else [CallAuthenticate]) + [RequestStarted]
                 + (if st.authz.None? then [] else [CallAuthorize]) + (if st.prompt.None? then [] else [CallPrompt])
  {
    if Admitted(st, a) {
      ReadPrompt(st, a);
      assert st.prompt.None? ==> IdentifiedLog(st) == EntryLog(st);
    } else {
      IdentityPasses(st, a);
    }
  }

  lemma IdentityPasses(st: Settings, a: Answers)
    requires !Admitted(st, a)
    ensures ShortCircuit(IdentityStages(st, a)).1.Some?
  {
    ShortCircuitPasses(IdentityStages(st, a));
    if !st.anonymous && !a.authn.Allows? {
      assert AuthnStage(st, a)[0] in IdentityStages(st, a);
    } else {
      assert AuthzStage(st, a)[0] in IdentityStages(st, a);
    }
  }

  /** What the second half of the table says, after the first. */
  lemma ThenPlan(st: Settings, req: Request, a: Answers)
    requires st.missing == [] && ShortCircuit(IdentityStages(st, a)).1.None?
    ensures ShortCircuit(Stages(st, req, a))
         == (ShortCircuit(IdentityStages(st, a)).0 + ShortCircuit(PlanStages(st, req, a)).0,
             ShortCircuit(PlanStages(st, req, a)).1)
  {
    TwoHalves(st, req, a);
    ShortCircuitAppend(IdentityStages(st, a), PlanStages(st, req, a));
  }

  /** A cache hit is served as the cache gave it, content and usage, and that is the end. */
  lemma CacheServes(st: Settings, req: Request, a: Answers)
    requires st.missing == [] && ShortCircuit(IdentityStages(st, a)).1.None?
    requires st.cache.Some? && !req.stream && a.lookup.Hit?
    ensures ChatLog(st, req, a)
         == ShortCircuit(IdentityStages(st, a)).0 + [CallLookup, CacheHit(a.lookup.usage)]
    ensures ShortCircuit(Stages(st, req, a)).1 == Some(Served(a.lookup.content, a.lookup.usage))
  {
    ThenPlan(st, req, a);
    PlanSplits(st, req, a);
    ReadLookup(st, req, a);
    ShortCircuitAppend(LookupStage(st, req, a), AfterLookup(st, a));
  }

  lemma ReadLookup(st: Settings, req: Request, a: Answers)
    ensures ShortCircuit(LookupStage(st, req, a))
         == if st.cache.None? || req.stream then ([], None)
            else if a.lookup.Hit? then
              ([CallLookup, CacheHit(a.lookup.usage)], Some(Served(a.lookup.content, a.lookup.usage)))
            else ([CallLookup], None)
  {
    ReadFirst(LookupStage(st, req, a));
  }

  lemma ReadCheck(st: Settings, a: Answers)
    ensures ShortCircuit(CheckStage(st, a))
         == if st.ratelimit.None? then ([], None)
            else ([CallCheck], match a.check
                               case Allows => None
                               case Denies(reason) => Some(Refused(RateLimitExceeded(reason)))
                               case Fails(e) => Some(Refused(PluginFailed(e))))
  {
    ReadFirst(CheckStage(st, a));
  }

  lemma ReadRoute(a: Answers)
    ensures ShortCircuit(ModelStage(a) + RouteStage(a))
         == if !a.modelKnown then ([], Some(Refused(ModelNotFound)))
            else match a.route
                 case RouteFails(e) => ([CallRoute], Some(Refused(PluginFailed(e))))
                 case Routes(routes) =>
                   if routes == [] then ([CallRoute], Some(Refused(NoRouteAvailable)))
                   else ([CallRoute, RouteSelected], None)
  {
    var rows := RouteStage(a);
    assert rows == [rows[0]] + [rows[1]];
    ReadFirst(ModelStage(a));
    if !a.modelKnown {
      RestUnread(ModelStage(a), rows);
    } else {
      ReadOn(ModelStage(a), [], [rows[0]]);
      assert [] + [CallRoute] == [CallRoute] && [CallRoute] + [RouteSelected] == [CallRoute, RouteSelected];
      assert ModelStage(a) + rows == ModelStage(a) + [rows[0]] + [rows[1]];
      if ShortCircuit(ModelStage(a) + [rows[0]]).1.Some? {
        RestUnread(ModelStage(a) + [rows[0]], [rows[1]]);
      } else {
        ReadOn(ModelStage(a) + [rows[0]], [CallRoute], [rows[1]]);
      }
    }
  }

  /** What follows a cache that was not asked or did not answer: the rate limiter, the model, the router. */
  lemma ReadAfterLookup(st: Settings, a: Answers)
    ensures var check := if st.ratelimit.None? then [] else [CallCheck];
            var (routing, ending) := ShortCircuit(ModelStage(a) + RouteStage(a));
            ShortCircuit(AfterLookup(st, a))
            == if st.ratelimit.Some? && a.check.Denies? then
                 ([CallCheck], Some(Refused(RateLimitExceeded(a.check.reason))))
               else if st.ratelimit.Some? && a.check.Fails? then
                 ([CallCheck], Some(Refused(PluginFailed(a.check.error))))
               else (check + routing, ending)
  {
    ReadCheck(st, a);
    assert AfterLookup(st, a) == CheckStage(st, a) + (ModelStage(a) + RouteStage(a));
    ShortCircuitAppend(CheckStage(st, a), ModelStage(a) + RouteStage(a));
  }

  /** The cache was not asked, or had nothing. */
  predicate CachePasses(st: Settings, req: Request, a: Answers) {
    st.cache.None? || req.stream || !a.lookup.Hit?
  }

  lemma ReadPlan(st: Settings, req: Request, a: Answers)
    requires CachePasses(st, req, a)
    ensures ShortCircuit(PlanStages(st, req, a))
         == ((if st.cache.None? || req.stream then [] else [CallLookup]) + ShortCircuit(AfterLookup(st, a)).0,
             ShortCircuit(AfterLookup(st, a)).1)
  {
    PlanSplits(st, req, a);
    ReadLookup(st, req, a);
    ShortCircuitAppend(LookupStage(st, req, a), AfterLookup(st, a));
  }

  /** A rate limiter that denies, or fails. */
  lemma RateLimiterRefuses(st: Settings, req: Request, a: Answers)
    requires st.missing == [] && ShortCircuit(IdentityStages(st, a)).1.None?
    requires st.cache.None? || req.stream || !a.lookup.Hit?
    requires st.ratelimit.Some? && !a.check.Allows?
    ensures ChatLog(st, req, a)
         == ShortCircuit(IdentityStages(st, a)).0
            + ((if st.cache.None? || req.stream then [] else [CallLookup]) + [CallCheck])
    ensures ShortCircuit(Stages(st, req, a)).1
         == Some(Refused(match a.check
                         case Denies(reason) => RateLimitExceeded(reason)
                         case Fails(e) => PluginFailed(e)
                         case Allows => NoRouteAvailable))
  {
    ThenPlan(st, req, a);
    ReadPlan(st, req, a);
    ReadAfterLookup(st, a);
  }

  /** An unknown model, a failing router, or one that names no route. */
  lemma RoutingRefuses(st: Settings, req: Request, a: Answers)
    requires st.missing == [] && ShortCircuit(IdentityStages(st, a)).1.None?
    requires st.cache.None? || req.stream || !a.lookup.Hit?
    requires st.ratelimit.None? || a.check.Allows?
    requires !a.modelKnown || a.route.RouteFails? || a.route.routes == []
    ensures ChatLog(st, req, a)
         == ShortCircuit(IdentityStages(st, a)).0
            + ((if st.cache.None? || req.stream then [] else [CallLookup])
               + ((if st.ratelimit.None? then [] else [CallCheck]) + if a.modelKnown then [CallRoute] else []))
    ensures ShortCircuit(Stages(st, req, a)).1
         == Some(Refused(if !a.modelKnown then ModelNotFound
                         else if a.route.RouteFails? then PluginFailed(a.route.error)
                         else NoRouteAvailable))
  {
    ThenPlan(st, req, a);
    ReadPlan(st, req, a);
    ReadAfterLookup(st, a);
    ReadRoute(a);
  }

  /** A request that gets past all gates: everything it has done by then, before the attempts begin. */
  lemma GatesPass(st: Settings, req: Request, a: Answers)
    requires st.missing == [] && ShortCircuit(IdentityStages(st, a)).1.None?
    requires st.cache.None? || req.stream || !a.lookup.Hit?
    requires st.ratelimit.None? || a.check.Allows?
    requires a.modelKnown && a.route.Routes? && a.route.routes != []
    ensures ShortCircuit(Stages(st, req, a))
         == (ShortCircuit(IdentityStages(st, a)).0
             + ((if st.cache.None? || req.stream then [] else [CallLookup])
                + ((if st.ratelimit.None? then [] else [CallCheck]) + [CallRoute, RouteSelected])), None)
    ensures ChatLog(st, req, a)
         == ShortCircuit(Stages(st, req, a)).0
            + RunLog(st, a.route.routes,
                     if st.prompt.Some? && a.prompt.Prompt? && a.prompt.messages != [] then a.prompt.messages
                     else req.messages,
                     req.stream, a)
  {
    ThenPlan(st, req, a);
    ReadPlan(st, req, a);
    ReadAfterLookup(st, a);
    ReadRoute(a);
  }

  // ---------------------------------------------------------------- the attempts

  /** What each kind of attempt adds to the log: nothing for a provider that is not configured, the
      call, and after a failure its event. */
  lemma AttemptAdds(routes: seq<Route>, os: seq<Outcome>, messages: seq<string>, n: nat)
    requires n < |os| <= |routes|
    ensures AttemptLog(routes, os, messages, 0) == []
    ensures os[n].Skipped? ==> AttemptLog(routes, os, messages, n + 1) == AttemptLog(routes, os, messages, n)
    ensures os[n].Won? ==>
              AttemptLog(routes, os, messages, n + 1)
              == AttemptLog(routes, os, messages, n) + [CallInvoke(n, routes[n].provider, messages)]
    ensures os[n].Failed? ==>
              AttemptLog(routes, os, messages, n + 1)
              == AttemptLog(routes, os, messages, n) + [CallInvoke(n, routes[n].provider, messages), UpstreamFailed(n)]
  {
  }

  /** Where a request that is past its gates wins or stops, in terms of the configuration, the routes
      and the answers. */
  lemma RunMeans(st: Settings, routes: seq<Route>, stream: bool, a: Answers, w: nat)
    ensures var n := Bound(st.maxAttempts, |routes|);
            var won := Walk(Outcomes(st, routes, stream, a), 0) == WonAt(w);
            && |Outcomes(st, routes, stream, a)| == n
            && (won && stream <==>
                  && stream && w < n && routes[w].provider in st.upstreams && a.invoke(w).Opens?
                  && forall j :: 0 <= j < w ==> PassedOver(routes[j].provider in st.upstreams, a.invoke(j)))
            && (won && !stream <==>
                  && !stream && w < n && routes[w].provider in st.upstreams && a.invoke(w).Opens?
                  && (forall k :: 0 <= k < |a.invoke(w).chunks| ==> a.invoke(w).chunks[k].error.None?)
                  && forall j :: 0 <= j < w ==> CollectPasses(routes[j].provider in st.upstreams, a.invoke(j)))
  {
    var n := Bound(st.maxAttempts, |routes|);
    var configured := IsConfigured(st, routes);
    assert forall j: nat :: j < n ==> configured(j) == (routes[j].provider in st.upstreams);
    if stream {
      StreamsFirst(configured, a.invoke, n, w);
    } else {
      CollectsFirst(configured, a.invoke, n, w);
    }
  }

  /** The same for a stop without success. */
  lemma StopMeans(st: Settings, routes: seq<Route>, stream: bool, a: Answers, w: nat)
    ensures var n := Bound(st.maxAttempts, |routes|);
            var stopped := Walk(Outcomes(st, routes, stream, a), 0) == StoppedAt(w);
            && (stopped && stream <==>
                  && stream && w < n && routes[w].provider in st.upstreams
                  && a.invoke(w).Refuses? && a.invoke(w).error.Upstream?
                  && !a.invoke(w).error.cause.retryable && !a.invoke(w).error.cause.rateLimited
                  && a.invoke(w).error.cause.httpStatus < 500
                  && forall j :: 0 <= j < w ==> PassedOver(routes[j].provider in st.upstreams, a.invoke(j)))
            && (stopped && !stream <==>
                  && !stream && w < n && CollectStops(routes[w].provider in st.upstreams, a.invoke(w))
                  && forall j :: 0 <= j < w ==> CollectPasses(routes[j].provider in st.upstreams, a.invoke(j)))
  {
    var n := Bound(st.maxAttempts, |routes|);
    var configured := IsConfigured(st, routes);
    assert forall j: nat :: j < n ==> configured(j) == (routes[j].provider in st.upstreams);
    if stream {
      StreamsFirst(configured, a.invoke, n, w);
    } else {
      CollectsFirst(configured, a.invoke, n, w);
    }
  }

  /** A route that counts as failed: where collecting, so does one whose provider is not configured. */
  predicate Counts(o: Outcome, stream: bool) {
    o.Failed? || (o.Skipped? && !stream)
  }

  /** Route `k` is the last one that counts as failed among the first `n`. */
  ghost predicate LastToCount(os: seq<Outcome>, stream: bool, n: nat, k: int)
    requires n <= |os|
  {
    0 <= k < n && Counts(os[k], stream) && forall i :: k < i < n ==> !Counts(os[i], stream)
  }

  /** What a failed request quotes: the error of the last route that counts as failed, if there is one. */
  lemma {:induction false} LastErrorMeans(routes: seq<Route>, os: seq<Outcome>, stream: bool, n: nat)
    requires n <= |os| <= |routes|
    ensures LastError(routes, os, stream, n) == None <==> forall i :: 0 <= i < n ==> !Counts(os[i], stream)
    ensures forall k :: LastToCount(os, stream, n, k) ==>
              LastError(routes, os, stream, n)
              == Some(if os[k].Failed? then os[k].error
                      else Plain("provider " + routes[k].provider + " not configured"))
  {
    if n > 0 {
      LastErrorMeans(routes, os, stream, n - 1);
      forall k | LastToCount(os, stream, n, k) && k < n - 1 ensures LastToCount(os, stream, n - 1, k) {
      }
    }
  }

  // ---------------------------------------------------------------- after a success

  /** What follows a collected success: the response goes to the cache, its usage to the rate limiter,
      each if there is one, and the event is sent; then come the blocking observers. */
  lemma SuccessMeans(st: Settings, chunks: seq<ResponseChunk>, a: Answers)
    ensures var usage := LastUsage(NO_USAGE, chunks);
            SuccessLog(st, chunks, a)
            == (if st.cache.Some? then [CallStore(TextOf(chunks), usage)] else [])
               + (if st.ratelimit.Some? then [CallCommit(usage)] else [])
               + ([RequestCompleted(usage)] + ObserverLog(a.observerFails, |st.blocking|, 0))
  {
  }

  /** The blocking observers are called in turn, up to and including the first that fails. */
  lemma {:induction false} ObserversMean(fails: nat -> bool, n: nat, k: nat)
    requires k <= n
    ensures var log := ObserverLog(fails, n, k);
            && |log| <= n - k
            && (forall i :: 0 <= i < |log| ==> log[i] == CallObserver(k + i))
            && (forall i :: k <= i < k + |log| - 1 ==> !fails(i))
            && (|log| < n - k ==> log != [] && fails(k + |log| - 1))
    decreases n - k
  {
    if k < n && !fails(k) {
      ObserversMean(fails, n, k + 1);
      var rest := ObserverLog(fails, n, k + 1);
      assert forall i :: 1 <= i < |rest| + 1 ==> ([CallObserver(k)] + rest)[i] == rest[i - 1];
    }
  }
}
