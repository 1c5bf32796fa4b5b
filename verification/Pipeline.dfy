/** `compile` and the chat pipeline as the code runs them (internal/pipeline/pipeline.go). */
module Pipeline {
  import opened Capabilities
  import opened Fallback
  import opened ChatModel
  import opened Sequences
  import ChatMeaning
  import ChatProperties
  import Collect

  datatype Config = Config(anonymous: bool, authenticator: string, authorizer: string, rateLimiter: string,
                           cacheProvider: string, promptProvider: string, router: string,
                           upstreamProviders: seq<string>, observers: seq<string>, blockingObservers: seq<string>,
                           maxAttempts: int)

  datatype Kind = AuthorizerKind | RateLimiterKind | CacheKind | PromptKind | UpstreamKind | ObserverKind

  /** The plugin instances that started, by capability. */
  datatype Registry = Registry(authenticators: set<string>, routers: set<string>, others: set<(Kind, string)>)

  function Optional(k: Kind, name: string): seq<(Kind, string)> {
    if name == "" then [] else [(k, name)]
  }

  function Named(k: Kind, names: seq<string>): seq<(Kind, string)> {
    seq(|names|, i requires 0 <= i < |names| => (k, names[i]))
  }

  function NeededOptional(cfg: Config): seq<(Kind, string)> {
    Optional(AuthorizerKind, cfg.authorizer) + Optional(RateLimiterKind, cfg.rateLimiter)
    + Optional(CacheKind, cfg.cacheProvider) + Optional(PromptKind, cfg.promptProvider)
  }

  /** The plugins without which the gateway refuses to start, in the order they are looked up. */
  function Needed(cfg: Config): seq<(Kind, string)> {
    NeededOptional(cfg) + Named(UpstreamKind, cfg.upstreamProviders)
    + Named(ObserverKind, cfg.observers) + Named(ObserverKind, cfg.blockingObservers)
  }

  function Bind(name: string): Option<string> {
    if name == "" then None else Some(name)
  }

  /** The authenticator that a gateway which needs one gets, if it is registered. */
  function BoundAuthenticator(cfg: Config, reg: Registry): Option<string> {
    if !cfg.anonymous && cfg.authenticator != "" && cfg.authenticator in reg.authenticators
    then Some(cfg.authenticator) else None
  }

  function BoundRouter(cfg: Config, reg: Registry): Option<string> {
    if cfg.router != "" && cfg.router in reg.routers then Some(cfg.router) else None
  }

  function MissingAuthenticator(cfg: Config, reg: Registry): seq<Capability> {
    if !cfg.anonymous && (cfg.authenticator == "" || cfg.authenticator !in reg.authenticators)
    then [AuthenticatorCap] else []
  }

  function MissingRouter(cfg: Config, reg: Registry): seq<Capability> {
    if cfg.router == "" || cfg.router !in reg.routers then [RouterCap] else []
  }

  function MissingProvider(cfg: Config): seq<Capability> {
    if cfg.upstreamProviders == [] then [UpstreamProviderCap] else []
  }

  /** The capabilities without which the gateway starts but is not ready. */
  function Missing(cfg: Config, reg: Registry): seq<Capability> {
    MissingAuthenticator(cfg, reg) + MissingRouter(cfg, reg) + MissingProvider(cfg)
  }

  predicate Known(needed: seq<(Kind, string)>, reg: Registry) {
    forall i :: 0 <= i < |needed| ==> needed[i] in reg.others
  }

  /** The first needed plugin that is not registered. */
  ghost predicate FirstUnknown(needed: seq<(Kind, string)>, reg: Registry, x: (Kind, string)) {
    exists i :: 0 <= i < |needed| && needed[i] == x && x !in reg.others
             && forall j :: 0 <= j < i ==> needed[j] in reg.others
  }

  lemma FirstUnknownAt(needed: seq<(Kind, string)>, reg: Registry, i: nat)
    requires i < |needed| && needed[i] !in reg.others && forall j :: 0 <= j < i ==> needed[j] in reg.others
    ensures FirstUnknown(needed, reg, needed[i]) && !Known(needed, reg)
  {
  }

  predicate Registered(kind: Kind, name: string, reg: Registry) {
    name == "" || (kind, name) in reg.others
  }

  predicate AllIn(kind: Kind, names: seq<string>, reg: Registry) {
    forall i :: 0 <= i < |names| ==> (kind, names[i]) in reg.others
  }

  /** Everything the configuration names is registered under its own kind. */
  predicate AllRegistered(cfg: Config, reg: Registry) {
    && Registered(AuthorizerKind, cfg.authorizer, reg) && Registered(RateLimiterKind, cfg.rateLimiter, reg)
    && Registered(CacheKind, cfg.cacheProvider, reg) && Registered(PromptKind, cfg.promptProvider, reg)
    && AllIn(UpstreamKind, cfg.upstreamProviders, reg)
    && AllIn(ObserverKind, cfg.observers, reg) && AllIn(ObserverKind, cfg.blockingObservers, reg)
  }

  /** The configuration names this plugin for that kind. */
  predicate Names(cfg: Config, kind: Kind, name: string) {
    match kind
    case AuthorizerKind => name != "" && name == cfg.authorizer
    case RateLimiterKind => name != "" && name == cfg.rateLimiter
    case CacheKind => name != "" && name == cfg.cacheProvider
    case PromptKind => name != "" && name == cfg.promptProvider
    case UpstreamKind => name in cfg.upstreamProviders
    case ObserverKind => name in cfg.observers || name in cfg.blockingObservers
  }

  lemma KnownAppend(a: seq<(Kind, string)>, b: seq<(Kind, string)>, reg: Registry)
    ensures Known(a + b, reg) <==> Known(a, reg) && Known(b, reg)
  {
    if Known(a + b, reg) {
      assert forall i :: 0 <= i < |a| ==> (a + b)[i] == a[i];
      assert forall i :: 0 <= i < |b| ==> (a + b)[|a| + i] == b[i];
    }
  }

  lemma KnownOptional(kind: Kind, name: string, reg: Registry)
    ensures Known(Optional(kind, name), reg) <==> Registered(kind, name, reg)
  {
    if name != "" {
      assert Optional(kind, name)[0] == (kind, name);
    }
  }

  lemma KnownNamed(kind: Kind, names: seq<string>, reg: Registry)
    ensures Known(Named(kind, names), reg) <==> AllIn(kind, names, reg)
  {
    assert forall i :: 0 <= i < |names| ==> Named(kind, names)[i] == (kind, names[i]);
  }

  lemma KnownMeans(cfg: Config, reg: Registry)
    ensures Known(Needed(cfg), reg) <==> AllRegistered(cfg, reg)
  {
    var a, r := Optional(AuthorizerKind, cfg.authorizer), Optional(RateLimiterKind, cfg.rateLimiter);
    var c, p := Optional(CacheKind, cfg.cacheProvider), Optional(PromptKind, cfg.promptProvider);
    KnownOptional(AuthorizerKind, cfg.authorizer, reg);
    KnownOptional(RateLimiterKind, cfg.rateLimiter, reg);
    KnownOptional(CacheKind, cfg.cacheProvider, reg);
    KnownOptional(PromptKind, cfg.promptProvider, reg);
    KnownAppend(a, r, reg);
    KnownAppend(a + r, c, reg);
    KnownAppend(a + r + c, p, reg);
    KnownLists(cfg, reg);
  }

  lemma KnownLists(cfg: Config, reg: Registry)
    ensures Known(Needed(cfg), reg) <==>
              && Known(NeededOptional(cfg), reg) && AllIn(UpstreamKind, cfg.upstreamProviders, reg)
              && AllIn(ObserverKind, cfg.observers, reg) && AllIn(ObserverKind, cfg.blockingObservers, reg)
  {
    var o, u := NeededOptional(cfg), Named(UpstreamKind, cfg.upstreamProviders);
    var x, b := Named(ObserverKind, cfg.observers), Named(ObserverKind, cfg.blockingObservers);
    KnownNamed(UpstreamKind, cfg.upstreamProviders, reg);
    KnownNamed(ObserverKind, cfg.observers, reg);
    KnownNamed(ObserverKind, cfg.blockingObservers, reg);
    KnownAppend(o, u, reg);
    KnownAppend(o + u, x, reg);
    KnownAppend(o + u + x, b, reg);
  }

  lemma RegisteredMeans(cfg: Config, reg: Registry)
    ensures AllRegistered(cfg, reg) <==>
              && (cfg.authorizer == "" || (AuthorizerKind, cfg.authorizer) in reg.others)
              && (cfg.rateLimiter == "" || (RateLimiterKind, cfg.rateLimiter) in reg.others)
              && (cfg.cacheProvider == "" || (CacheKind, cfg.cacheProvider) in reg.others)
              && (cfg.promptProvider == "" || (PromptKind, cfg.promptProvider) in reg.others)
              && (forall u :: u in cfg.upstreamProviders ==> (UpstreamKind, u) in reg.others)
              && (forall o :: o in cfg.observers || o in cfg.blockingObservers ==> (ObserverKind, o) in reg.others)
  {
    assert forall i :: 0 <= i < |cfg.observers| ==> cfg.observers[i] in cfg.observers;
  }

  lemma OptionalNames(cfg: Config)
    ensures forall x :: x in NeededOptional(cfg) ==> Names(cfg, x.0, x.1)
  {
  }

  lemma NamedNames(kind: Kind, names: seq<string>)
    ensures forall x :: x in Named(kind, names) ==> x.0 == kind && x.1 in names
  {
  }

  lemma UnknownMeans(cfg: Config, reg: Registry)
    ensures forall x :: FirstUnknown(Needed(cfg), reg, x) ==> x !in reg.others && Names(cfg, x.0, x.1)
  {
    OptionalNames(cfg);
    NamedNames(UpstreamKind, cfg.upstreamProviders);
    NamedNames(ObserverKind, cfg.observers);
    NamedNames(ObserverKind, cfg.blockingObservers);
    forall x | x in Needed(cfg)
      ensures x in NeededOptional(cfg) || x in Named(UpstreamKind, cfg.upstreamProviders)
              || x in Named(ObserverKind, cfg.observers) || x in Named(ObserverKind, cfg.blockingObservers)
    {
    }
  }

  datatype Compiled = Ok(pipeline: Pipeline) | Unknown(kind: Kind, name: string)

  datatype RouteHeaders = RouteHeaders(provider: string, model: string, index: nat)

  datatype CacheHeader = BYPASS | HIT | MISS

  /** `stream` is the route whose channel the relay reads, for a streaming request that found one. */
  datatype Result = Result(content: string, usage: Usage, stream: Option<nat>, cache: CacheHeader,
                           rate: Option<RateState>, headers: Option<RouteHeaders>, fallbackIndex: nat)

  datatype Attempted = Answer(content: string, usage: Usage) | Error(error: CallError)

  const EMPTY_RESULT := Result("", NO_USAGE, None, BYPASS, None, None, 0)

  /** A result that has only the headers set before routing. */
  predicate Unanswered(result: Result) {
    result == EMPTY_RESULT.(cache := result.cache, rate := result.rate)
  }

  predicate SameHeaders(a: Result, b: Result) { a.cache == b.cache && a.rate == b.rate }

  /** The rate-limit headers: the limiter's account, if it answered and gave a limit. */
  function RateHeaders(a: Answers): Option<RateState> {
    if !a.check.Fails? && a.rate.requests > 0 then Some(a.rate) else None
  }

  /** The headers are set before a route is tried. */
  function Carrying(result: Result, r: Route, i: nat): Result {
    result.(headers := Some(RouteHeaders(r.provider, r.model, i)), fallbackIndex := i)
  }

  /** The route headers and index a result carries when `tried` is the last route attempted. */
  predicate Carries(result: Result, routes: seq<Route>, tried: Option<nat>)
    requires tried.Some? ==> tried.value < |routes|
  {
    match tried
    case None => result.headers == None && result.fallbackIndex == 0
    case Some(i) =>
      result.headers == Some(RouteHeaders(routes[i].provider, routes[i].model, i)) && result.fallbackIndex == i
  }

  lemma {:induction false} TriedInRange(os: seq<Outcome>, n: nat)
    requires n <= |os|
    ensures LastTried(os, n).Some? ==> LastTried(os, n).value < n
  {
    if n > 0 {
      TriedInRange(os, n - 1);
    }
  }

  /** The first blocking observer that fails makes the request fail. */
  function ObserverFailure(a: Answers, observers: nat): Option<Failure> {
    if exists k :: 0 <= k < observers && a.observerFails(k) then Some(ObserverFailed) else None
  }

  /** How a routed request ends: with the winner's stream or collected response and nothing of any
      other attempt, or with an error that quotes the last one. */
  ghost predicate Ends(st: Settings, req: Request, a: Answers, result: Result, failure: Option<Failure>) {
    var routes := Routed(a);
    var os := Outcomes(st, routes, req.stream, a);
    TriedInRange(os, Visited(os));
    WalkFrom(os, 0);
    match Walk(os, 0)
    case WonAt(w) =>
      && Carries(result, routes, Some(w))
      && if req.stream then
           result.stream == Some(w) && result.content == "" && result.usage == NO_USAGE && failure == None
         else
           var chunks := Chunks(a.invoke(w));
           && result.stream == None && result.content == TextOf(chunks) && result.usage == LastUsage(NO_USAGE, chunks)
           && failure == ObserverFailure(a, |st.blocking|)
    case _ =>
      && Carries(result, routes, LastTried(os, Visited(os)))
      && result.stream == None && result.content == "" && result.usage == NO_USAGE
      && failure == Some(UpstreamUnavailable(LastError(routes, os, req.stream, Visited(os))))
  }

  /** What that comes to for the result: the winner's route is in the headers; a stream is handed on as
      it is, and anything else has the text and the usage of the winner's chunks and fails only if a
      blocking observer does; without a winner there is an error and nothing of any attempt. */
  lemma EndsMeans(st: Settings, req: Request, a: Answers, result: Result, failure: Option<Failure>)
    requires a.route.Routes? && Ends(st, req, a, result, failure)
    ensures match Walk(Outcomes(st, a.route.routes, req.stream, a), 0)
            case WonAt(w) =>
              && w < |a.route.routes| && a.invoke(w).Opens?
              && result.headers == Some(RouteHeaders(a.route.routes[w].provider, a.route.routes[w].model, w))
              && result.fallbackIndex == w
              && (if req.stream then
                    && result.stream == Some(w) && result.content == "" && result.usage == Usage(0, 0, 0)
                    && failure == None
                  else
                    && result.stream == None && result.content == TextOf(a.invoke(w).chunks)
                    && result.usage == LastUsage(Usage(0, 0, 0), a.invoke(w).chunks)
                    && (failure == None <==> forall k :: 0 <= k < |st.blocking| ==> !a.observerFails(k))
                    && (failure.Some? ==> failure.value == ObserverFailed))
            case _ =>
              && result.stream == None && result.content == "" && result.usage == Usage(0, 0, 0)
              && failure.Some? && failure.value.UpstreamUnavailable?
              && (result.headers == None ==> result.fallbackIndex == 0)
              && (result.headers.Some? ==>
                    && result.headers.value.index == result.fallbackIndex < |a.route.routes|
                    && result.headers.value.provider == a.route.routes[result.fallbackIndex].provider
                    && result.headers.value.model == a.route.routes[result.fallbackIndex].model)
  {
    var os := Outcomes(st, a.route.routes, req.stream, a);
    WalkFrom(os, 0);
    TriedInRange(os, Visited(os));
    if Walk(os, 0).WonAt? {
      ChatMeaning.RunMeans(st, a.route.routes, req.stream, a, Walk(os, 0).index);
    }
  }

  /** What the text of a failed request quotes, and which route its headers name. */
  lemma LostMeans(st: Settings, req: Request, a: Answers, result: Result, failure: Option<Failure>)
    requires a.route.Routes? && Ends(st, req, a, result, failure)
    requires !Walk(Outcomes(st, a.route.routes, req.stream, a), 0).WonAt?
    ensures var os := Outcomes(st, a.route.routes, req.stream, a);
            && failure == Some(UpstreamUnavailable(LastError(a.route.routes, os, req.stream, Visited(os))))
            && (result.headers == None <==> Configured(os, Visited(os)) == [])
            && (Configured(os, Visited(os)) != [] ==>
                  result.fallbackIndex == Configured(os, Visited(os))[|Configured(os, Visited(os))| - 1])
  {
    var os := Outcomes(st, a.route.routes, req.stream, a);
    ConfiguredMeaning(os, Visited(os));
    TriedInRange(os, Visited(os));
  }

  /** A cache hit, in the answer's own terms. */
  lemma HitIsServed(st: Settings, req: Request, a: Answers)
    ensures CallLookup in ChatLog(st, req, a) && a.lookup.Hit? ==>
              && st.missing == []
              && ShortCircuit(Stages(st, req, a)).1 == Some(Served(a.lookup.content, a.lookup.usage))
              && ChatLog(st, req, a) != []
              && ChatLog(st, req, a)[|ChatLog(st, req, a)| - 1] == CacheHit(a.lookup.usage)
  {
    ChatProperties.WhenAsked(st, req, a);
    if CallLookup in ChatLog(st, req, a) && a.lookup.Hit? {
      ChatMeaning.CacheServes(st, req, a);
    }
  }

  /** What a loop has to show for its first `n` routes, none of which won. */
  ghost predicate SoFar(routes: seq<Route>, os: seq<Outcome>, messages: seq<string>, stream: bool, n: nat,
                        result: Result, lastErr: Option<CallError>, log: seq<Action>)
    requires n <= |os| <= |routes|
  {
    TriedInRange(os, n);
    && log == AttemptLog(routes, os, messages, n) && lastErr == LastError(routes, os, stream, n)
    && Carries(result, routes, LastTried(os, n))
    && result.content == "" && result.stream == None && result.usage == NO_USAGE
  }

  lemma SkippedRoute(routes: seq<Route>, os: seq<Outcome>, messages: seq<string>, stream: bool, i: nat,
                     result: Result, lastErr: Option<CallError>, log: seq<Action>)
    requires i < |os| <= |routes| && os[i].Skipped? && SoFar(routes, os, messages, stream, i, result, lastErr, log)
    ensures SoFar(routes, os, messages, stream, i + 1, result,
                  if stream then lastErr else Some(NotConfigured(routes[i].provider)), log)
  {
    assert log + [] == log;
  }

  lemma FailedRoute(routes: seq<Route>, os: seq<Outcome>, messages: seq<string>, stream: bool, i: nat,
                    result: Result, lastErr: Option<CallError>, log: seq<Action>)
    requires i < |os| <= |routes| && os[i].Failed? && SoFar(routes, os, messages, stream, i, result, lastErr, log)
    ensures SoFar(routes, os, messages, stream, i + 1,
                  Carrying(result, routes[i], i),
                  Some(os[i].error), log + [CallInvoke(i, routes[i].provider, messages)] + [UpstreamFailed(i)])
  {
  }

  /** A failed route either lets the walk go on or is where it stops. */
  lemma AfterFailure(os: seq<Outcome>, i: nat)
    requires i < |os| && os[i].Failed? && forall j :: 0 <= j < i ==> GoesOn(os[j])
    ensures if Retryable(os[i].error) then forall j :: 0 <= j < i + 1 ==> GoesOn(os[j]) else Walk(os, 0) == StoppedAt(i)
  {
    if !Retryable(os[i].error) {
      EndsHere(os, i);
    }
  }

  /** A collected success ends as the model says. */
  lemma WonEnds(st: Settings, req: Request, routes: seq<Route>, a: Answers, i: nat, before: Result, result: Result)
    requires a.route == Routes(routes) && !req.stream && before.stream == None
    requires i < |routes| && Walk(Outcomes(st, routes, false, a), 0) == WonAt(i)
    requires var chunks := Chunks(a.invoke(i));
             result == Carrying(before, routes[i], i).(content := TextOf(chunks), usage := LastUsage(NO_USAGE, chunks))
    ensures Ends(st, req, a, result, ObserverFailure(a, |st.blocking|))
  {
  }

  /** So does a stream that has been opened. */
  lemma OpenedEnds(st: Settings, req: Request, routes: seq<Route>, a: Answers, i: nat, before: Result)
    requires a.route == Routes(routes) && req.stream && before.content == "" && before.usage == NO_USAGE
    requires i < |routes| && Walk(Outcomes(st, routes, true, a), 0) == WonAt(i)
    ensures Ends(st, req, a, Carrying(before, routes[i], i).(stream := Some(i)), None)
  {
  }

  /** A loop that has stopped without success has done what the model does, and says why. */
  lemma LostEnds(st: Settings, req: Request, routes: seq<Route>, messages: seq<string>, a: Answers, n: nat,
                 result: Result, lastErr: Option<CallError>, log: seq<Action>)
    requires a.route == Routes(routes)
    requires var os := Outcomes(st, routes, req.stream, a);
             && n <= |os| && SoFar(routes, os, messages, req.stream, n, result, lastErr, log)
             && ((n == |os| && forall j :: 0 <= j < n ==> GoesOn(os[j])) || (n > 0 && Walk(os, 0) == StoppedAt(n - 1)))
    ensures log + [RequestFailed] == RunLog(st, routes, messages, req.stream, a)
    ensures Ends(st, req, a, result, Some(UpstreamUnavailable(lastErr)))
  {
    WalkStops(Outcomes(st, routes, req.stream, a), n);
    LostRun(st, routes, messages, req.stream, a);
  }

  class Pipeline {
    var anonymous: bool
    var maxAttempts: int
    var authn: Option<string>
    var authz: Option<string>
    var ratelimit: Option<string>
    var router: Option<string>
    var cache: Option<string>
    var prompt: Option<string>
    var upstreams: set<string>
    var asyncObservers: seq<string>
    var blockingObservers: seq<string>
    var missing: seq<Capability>
    var ready: bool

    /** The configuration as the model reads it: these fields and no others. */
    function Settings(): (st: Settings)
      reads this
      ensures st.anonymous == anonymous && st.authn == authn && st.authz == authz && st.ratelimit == ratelimit
      ensures st.cache == cache && st.prompt == prompt && st.router == router && st.upstreams == upstreams
      ensures st.blocking == blockingObservers && st.maxAttempts == maxAttempts && st.missing == missing
    {
      ChatModel.Settings(anonymous, authn, authz, ratelimit, cache, prompt, router, upstreams,
                         blockingObservers, maxAttempts, missing)
    }

    /** A ready pipeline has everything `ExecuteChat` calls without asking first. */
    predicate Valid()
      reads this
    {
      && (ready <==> missing == [])
      && (ready ==> (anonymous || authn.Some?) && router.Some? && upstreams != {})
    }

    constructor (cfg: Config)
      ensures anonymous == cfg.anonymous && maxAttempts == cfg.maxAttempts && missing == [] && !ready
      ensures authn.None? && authz.None? && ratelimit.None? && router.None? && cache.None? && prompt.None?
      ensures upstreams == {} && asyncObservers == [] && blockingObservers == []
    {
      anonymous, maxAttempts, missing, ready := cfg.anonymous, cfg.maxAttempts, [], false;
      authn, authz, ratelimit, router, cache, prompt := None, None, None, None, None, None;
      upstreams, asyncObservers, blockingObservers := {}, [], [];
    }

    /** Every capability is bound to the instance the configuration names; the required ones that are not
        registered are left unbound. */
    ghost predicate Binds(cfg: Config, reg: Registry)
      reads this
    {
      && authz == Bind(cfg.authorizer) && ratelimit == Bind(cfg.rateLimiter)
      && cache == Bind(cfg.cacheProvider) && prompt == Bind(cfg.promptProvider)
      && upstreams == (set u | u in cfg.upstreamProviders)
      && asyncObservers == cfg.observers && blockingObservers == cfg.blockingObservers
      && anonymous == cfg.anonymous && maxAttempts == cfg.maxAttempts
      && authn == BoundAuthenticator(cfg, reg) && router == BoundRouter(cfg, reg)
    }

    /** Looks an optional capability up, if one is named. */
    static method Lookup(kind: Kind, name: string, reg: Registry) returns (bound: Option<string>, found: bool)
      ensures found <==> Known(Optional(kind, name), reg)
      ensures found ==> bound == Bind(name)
      ensures found ==> (bound.None? <==> name == "")
      ensures found && bound.Some? ==> bound.value == name && (kind, name) in reg.others
      ensures !found ==> Optional(kind, name) == [(kind, name)] && (kind, name) !in reg.others
    {
      if name == "" {
        return None, true;
      }
      assert Optional(kind, name)[0] == (kind, name);
      return Some(name), (kind, name) in reg.others;
    }

    /** Looks a list of capabilities up, stopping at the first that is not registered. */
    static method LookupAll(kind: Kind, names: seq<string>, reg: Registry) returns (good: nat)
      ensures good <= |names| && forall j :: 0 <= j < good ==> (kind, names[j]) in reg.others
      ensures good < |names| ==> (kind, names[good]) !in reg.others
    {
      good := 0;
      while good < |names| && (kind, names[good]) in reg.others
        invariant good <= |names| && forall j :: 0 <= j < good ==> (kind, names[j]) in reg.others
      {
        good := good + 1;
      }
    }

    /** `compile`: fails on the first needed plugin that is not registered; otherwise binds every
        capability and is ready exactly when nothing required is missing. */
    static method Compile(cfg: Config, reg: Registry) returns (r: Compiled)
      ensures r.Ok? <==> Known(Needed(cfg), reg)
      ensures r.Unknown? ==> FirstUnknown(Needed(cfg), reg, (r.kind, r.name))
      ensures r.Ok? ==>
                && fresh(r.pipeline) && r.pipeline.Valid() && r.pipeline.Binds(cfg, reg)
                && r.pipeline.missing == Missing(cfg, reg)
      ensures r.Ok? <==>
                && (cfg.authorizer == "" || (AuthorizerKind, cfg.authorizer) in reg.others)
                && (cfg.rateLimiter == "" || (RateLimiterKind, cfg.rateLimiter) in reg.others)
                && (cfg.cacheProvider == "" || (CacheKind, cfg.cacheProvider) in reg.others)
                && (cfg.promptProvider == "" || (PromptKind, cfg.promptProvider) in reg.others)
                && (forall u :: u in cfg.upstreamProviders ==> (UpstreamKind, u) in reg.others)
                && (forall o :: o in cfg.observers || o in cfg.blockingObservers ==> (ObserverKind, o) in reg.others)
      ensures r.Unknown? ==> (r.kind, r.name) !in reg.others && Names(cfg, r.kind, r.name)
      ensures r.Ok? ==>
                && (r.pipeline.authz.None? <==> cfg.authorizer == "")
                && (r.pipeline.authz.Some? ==>
                      r.pipeline.authz.value == cfg.authorizer && (AuthorizerKind, cfg.authorizer) in reg.others)
                && (r.pipeline.ratelimit.None? <==> cfg.rateLimiter == "")
                && (r.pipeline.ratelimit.Some? ==>
                      r.pipeline.ratelimit.value == cfg.rateLimiter && (RateLimiterKind, cfg.rateLimiter) in reg.others)
                && (r.pipeline.cache.None? <==> cfg.cacheProvider == "")
                && (r.pipeline.cache.Some? ==>
                      r.pipeline.cache.value == cfg.cacheProvider && (CacheKind, cfg.cacheProvider) in reg.others)
                && (r.pipeline.prompt.None? <==> cfg.promptProvider == "")
                && (r.pipeline.prompt.Some? ==>
                      r.pipeline.prompt.value == cfg.promptProvider && (PromptKind, cfg.promptProvider) in reg.others)
      ensures r.Ok? ==>
                && r.pipeline.anonymous == cfg.anonymous && r.pipeline.maxAttempts == cfg.maxAttempts
                && (forall u :: u in r.pipeline.upstreams <==> u in cfg.upstreamProviders)
                && r.pipeline.asyncObservers == cfg.observers
                && r.pipeline.blockingObservers == cfg.blockingObservers
                && (r.pipeline.authn.Some? <==>
                      !cfg.anonymous && cfg.authenticator != "" && cfg.authenticator in reg.authenticators)
                && (r.pipeline.authn.Some? ==> r.pipeline.authn.value == cfg.authenticator)
                && (r.pipeline.router.Some? <==> cfg.router != "" && cfg.router in reg.routers)
                && (r.pipeline.router.Some? ==> r.pipeline.router.value == cfg.router)
      ensures r.Ok? ==>
                && (r.pipeline.ready <==> r.pipeline.missing == [])
                && r.pipeline.missing
                   == (if cfg.anonymous || r.pipeline.authn.Some? then [] else [AuthenticatorCap])
                      + (if r.pipeline.router.Some? then [] else [RouterCap])
                      + (if cfg.upstreamProviders == [] then [UpstreamProviderCap] else [])
    {
      KnownMeans(cfg, reg);
      RegisteredMeans(cfg, reg);
      UnknownMeans(cfg, reg);
      var p := new Pipeline(cfg);
      var unknown := p.BindAll(cfg, reg);
      if unknown.Some? {
        return Unknown(unknown.value.0, unknown.value.1);
      }
      p.ready := p.missing == [];
      return Ok(p);
    }

    /** The lookups in their order; the first plugin that is needed and not registered ends them. */
    method BindAll(cfg: Config, reg: Registry) returns (unknown: Option<(Kind, string)>)
      requires authn.None? && router.None? && missing == [] && anonymous == cfg.anonymous
      requires upstreams == {} && asyncObservers == [] && blockingObservers == [] && maxAttempts == cfg.maxAttempts
      modifies this
      ensures unknown.None? <==> Known(Needed(cfg), reg)
      ensures unknown.Some? ==> FirstUnknown(Needed(cfg), reg, unknown.value)
      ensures unknown.None? ==>
                && Binds(cfg, reg) && missing == Missing(cfg, reg)
                && (missing == [] ==> (anonymous || authn.Some?) && router.Some? && upstreams != {})
    {
      BindAuthenticator(cfg, reg);
      unknown := BindOptional(cfg, reg);
      if unknown.None? {
        BindRouter(cfg, reg);
        unknown := BindLists(cfg, reg);
      }
    }

    method BindAuthenticator(cfg: Config, reg: Registry)
      requires authn.None? && missing == [] && anonymous == cfg.anonymous
      modifies this`authn, this`missing
      ensures authn == BoundAuthenticator(cfg, reg)
      ensures missing == MissingAuthenticator(cfg, reg)
      ensures missing == [] ==> anonymous || authn.Some?
    {
      if !cfg.anonymous {
        if cfg.authenticator == "" || cfg.authenticator !in reg.authenticators {
          missing := missing + [AuthenticatorCap];
        } else {
          authn := Some(cfg.authenticator);
        }
      }
    }

    method BindRouter(cfg: Config, reg: Registry)
      requires router.None?
      modifies this`router, this`missing
      ensures router == BoundRouter(cfg, reg)
      ensures missing == old(missing) + MissingRouter(cfg, reg)
      ensures missing == [] ==> router.Some?
    {
      if cfg.router == "" || cfg.router !in reg.routers {
        missing := missing + [RouterCap];
      } else {
        router := Some(cfg.router);
      }
    }

    method BindOptional(cfg: Config, reg: Registry) returns (unknown: Option<(Kind, string)>)
      modifies this`authz, this`ratelimit, this`cache, this`prompt
      ensures unknown.None? ==>
                && authz == Bind(cfg.authorizer) && ratelimit == Bind(cfg.rateLimiter)
                && cache == Bind(cfg.cacheProvider) && prompt == Bind(cfg.promptProvider)
                && Known(NeededOptional(cfg), reg)
      ensures unknown.Some? ==> FirstUnknown(Needed(cfg), reg, unknown.value) && !Known(Needed(cfg), reg)
    {
      ghost var needed := Needed(cfg);
      ghost var seen: seq<(Kind, string)> := [];
      var bound, found := Lookup(AuthorizerKind, cfg.authorizer, reg);
      if !found {
        FirstUnknownAt(needed, reg, |seen|);
        return Some((AuthorizerKind, cfg.authorizer));
      }
      authz, seen := bound, seen + Optional(AuthorizerKind, cfg.authorizer);
      bound, found := Lookup(RateLimiterKind, cfg.rateLimiter, reg);
      if !found {
        FirstUnknownAt(needed, reg, |seen|);
        return Some((RateLimiterKind, cfg.rateLimiter));
      }
      ratelimit, seen := bound, seen + Optional(RateLimiterKind, cfg.rateLimiter);
      bound, found := Lookup(CacheKind, cfg.cacheProvider, reg);
      if !found {
        FirstUnknownAt(needed, reg, |seen|);
        return Some((CacheKind, cfg.cacheProvider));
      }
      cache, seen := bound, seen + Optional(CacheKind, cfg.cacheProvider);
      bound, found := Lookup(PromptKind, cfg.promptProvider, reg);
      if !found {
        FirstUnknownAt(needed, reg, |seen|);
        return Some((PromptKind, cfg.promptProvider));
      }
      prompt := bound;
      return None;
    }

    method BindUpstreams(cfg: Config, reg: Registry) returns (unknown: Option<(Kind, string)>)
      requires upstreams == {} && Known(NeededOptional(cfg), reg)
      modifies this`upstreams, this`missing
      ensures unknown.None? ==>
                && upstreams == (set u | u in cfg.upstreamProviders)
                && missing == old(missing) + MissingProvider(cfg)
                && (missing == [] ==> upstreams != {})
                && Known(NeededOptional(cfg) + Named(UpstreamKind, cfg.upstreamProviders), reg)
      ensures unknown.Some? ==> FirstUnknown(Needed(cfg), reg, unknown.value) && !Known(Needed(cfg), reg)
    {
      var good := LookupAll(UpstreamKind, cfg.upstreamProviders, reg);
      if good < |cfg.upstreamProviders| {
        FirstUnknownAt(Needed(cfg), reg, |NeededOptional(cfg)| + good);
        return Some((UpstreamKind, cfg.upstreamProviders[good]));
      }
      upstreams := set u | u in cfg.upstreamProviders;
      assert cfg.upstreamProviders != [] ==> cfg.upstreamProviders[0] in upstreams;
      if upstreams == {} {
        missing := missing + [UpstreamProviderCap];
      }
      return None;
    }

    /** The providers, then the observers. */
    method BindLists(cfg: Config, reg: Registry) returns (unknown: Option<(Kind, string)>)
      requires upstreams == {} && Known(NeededOptional(cfg), reg) && asyncObservers == [] && blockingObservers == []
      modifies this`upstreams, this`missing, this`asyncObservers, this`blockingObservers
      ensures unknown.None? ==>
                && upstreams == (set u | u in cfg.upstreamProviders)
                && missing == old(missing) + MissingProvider(cfg) && (missing == [] ==> upstreams != {})
                && asyncObservers == cfg.observers && blockingObservers == cfg.blockingObservers
                && Known(Needed(cfg), reg)
      ensures unknown.Some? ==> FirstUnknown(Needed(cfg), reg, unknown.value) && !Known(Needed(cfg), reg)
    {
      unknown := BindUpstreams(cfg, reg);
      if unknown.None? {
        unknown := BindObservers(cfg, reg);
      }
    }

    method BindObservers(cfg: Config, reg: Registry) returns (unknown: Option<(Kind, string)>)
      requires asyncObservers == [] && blockingObservers == []
      requires Known(NeededOptional(cfg) + Named(UpstreamKind, cfg.upstreamProviders), reg)
      modifies this`asyncObservers, this`blockingObservers
      ensures unknown.None? ==>
                asyncObservers == cfg.observers && blockingObservers == cfg.blockingObservers && Known(Needed(cfg), reg)
      ensures unknown.Some? ==> FirstUnknown(Needed(cfg), reg, unknown.value) && !Known(Needed(cfg), reg)
    {
      ghost var seen := NeededOptional(cfg) + Named(UpstreamKind, cfg.upstreamProviders);
      ghost var needed := seen + (Named(ObserverKind, cfg.observers) + Named(ObserverKind, cfg.blockingObservers));
      assert needed == Needed(cfg);
      var good := LookupAll(ObserverKind, cfg.observers, reg);
      if good < |cfg.observers| {
        FirstUnknownAt(needed, reg, |seen| + good);
        return Some((ObserverKind, cfg.observers[good]));
      }
      asyncObservers := cfg.observers;
      good := LookupAll(ObserverKind, cfg.blockingObservers, reg);
      if good < |cfg.blockingObservers| {
        FirstUnknownAt(needed, reg, |seen| + |cfg.observers| + good);
        return Some((ObserverKind, cfg.blockingObservers[good]));
      }
      blockingObservers := cfg.blockingObservers;
      return None;
    }

    /** `ExecuteChat`: what happens is `ChatLog`, and the result is the one the log's ending calls for. */
    method ExecuteChat(req: Request, a: Answers) returns (result: Result, failure: Option<Failure>, log: seq<Action>)
      requires Valid()
      ensures log == ChatLog(Settings(), req, a)
      ensures !ready ==> result == EMPTY_RESULT && failure == Some(MissingCapabilities(missing))
      ensures ready && ShortCircuit(Stages(Settings(), req, a)).1.Some? ==>
                match ShortCircuit(Stages(Settings(), req, a)).1.value
                case Refused(f) => failure == Some(f) && Unanswered(result)
                case Served(content, usage) =>
                  failure == None && result == EMPTY_RESULT.(content := content, usage := usage, cache := HIT)
      ensures ready && ShortCircuit(Stages(Settings(), req, a)).1.None? ==> Ends(Settings(), req, a, result, failure)
      ensures result.cache == HIT <==> ready && ShortCircuit(Stages(Settings(), req, a)).1.Some?
                                       && ShortCircuit(Stages(Settings(), req, a)).1.value.Served?
      ensures result.cache == BYPASS <==> CallLookup !in log
      ensures result.rate
           == if CallCheck in log && !a.check.Fails? && a.rate.requests > 0 then Some(a.rate) else None
      ensures CallLookup in log && a.lookup.Hit? ==>
                && failure == None && result.content == a.lookup.content && result.usage == a.lookup.usage
                && log[|log| - 1] == CacheHit(a.lookup.usage)
      ensures failure.Some? && (!ready || ShortCircuit(Stages(Settings(), req, a)).1.Some?) ==>
                && result.content == "" && result.usage == Usage(0, 0, 0) && result.stream == None
                && result.headers == None && result.fallbackIndex == 0
    {
      log, failure, result := [], None, EMPTY_RESULT;
      if !ready {
        return result, Some(MissingCapabilities(missing)), log;
      }
      ChatProperties.WhenAsked(Settings(), req, a);
      HitIsServed(Settings(), req, a);
      TwoHalves(Settings(), req, a);
      ShortCircuitAppend(IdentityStages(Settings(), a), PlanStages(Settings(), req, a));
      var messages := req.messages;
      log, messages, failure := Identify(req, a);
      if failure.Some? {
        return;
      }
      var plan: seq<Action>;
      result, failure, plan := Plan(req, a);
      log := log + plan;
      if failure.Some? || result.cache == HIT {
        return;
      }
      var run: seq<Action>;
      result, failure, run := Execute(req, messages, a.route.routes, a, result);
      log := log + run;
    }

    /** The loop for the kind of request. */
    method Execute(req: Request, messages: seq<string>, routes: seq<Route>, a: Answers, before: Result)
      returns (result: Result, failure: Option<Failure>, log: seq<Action>)
      requires a.route == Routes(routes) && Unanswered(before)
      ensures log == RunLog(Settings(), routes, messages, req.stream, a)
      ensures Ends(Settings(), req, a, result, failure) && SameHeaders(result, before)
    {
      if req.stream {
        result, failure, log := ExecuteStream(req, messages, routes, a, before);
      } else {
        result, failure, log := ExecuteNonStream(req, messages, routes, a, before);
      }
    }

    /** Authentication, the start event, authorization and the managed prompt. */
    method Identify(req: Request, a: Answers)
      returns (log: seq<Action>, messages: seq<string>, failure: Option<Failure>)
      requires Valid() && ready
      ensures log == ShortCircuit(IdentityStages(Settings(), a)).0
      ensures match ShortCircuit(IdentityStages(Settings(), a)).1
              case Some(Refused(f)) => failure == Some(f)
              case Some(Served(_, _)) => false
              case None => failure == None && messages == Messages(Settings(), req, a)
    {
      ghost var st := Settings();
      log, messages, failure := [], req.messages, None;
      ghost var read: seq<Stage> := [];
      if !anonymous {
        assert authn.Some?;
        log := log + [CallAuthenticate];
        OneMoreRow(read, AuthnStage(st, a)[0]);
        read := read + AuthnStage(st, a);
        if !a.authn.Allows? {
          ghost var rest := [Stage([RequestStarted], None)] + AuthzStage(st, a) + PromptStage(st, a);
          RestUnread(read, rest);
          assert IdentityStages(st, a) == read + rest;
          return log, messages, Some(AuthenticationFailed(if a.authn.Denies? then a.authn.reason
                                                          else ErrorText(a.authn.error)));
        }
      }
      log := log + [RequestStarted];
      OneMoreRow(read, Stage([RequestStarted], None));
      read := read + [Stage([RequestStarted], None)];
      if authz.Some? {
        log := log + [CallAuthorize];
        OneMoreRow(read, AuthzStage(st, a)[0]);
        read := read + AuthzStage(st, a);
        if !a.authz.Allows? {
          RestUnread(read, PromptStage(st, a));
          assert IdentityStages(st, a) == read + PromptStage(st, a);
          failure := Some(if a.authz.Denies? then AuthorizationDenied(a.authz.reason) else PluginFailed(a.authz.error));
          return;
        }
      }
      if prompt.Some? {
        log := log + [CallPrompt];
        OneMoreRow(read, PromptStage(st, a)[0]);
        read := read + PromptStage(st, a);
        if a.prompt.PromptFails? {
          assert IdentityStages(st, a) == read;
          return log, messages, Some(PluginFailed(a.prompt.error));
        }
        if a.prompt.messages != [] {
          messages := a.prompt.messages;
        }
      }
      assert IdentityStages(st, a) == read;
    }

    /** Cache lookup, rate limit, candidates and routing. */
    method Plan(req: Request, a: Answers) returns (result: Result, failure: Option<Failure>, log: seq<Action>)
      requires Valid() && ready
      ensures log == ShortCircuit(PlanStages(Settings(), req, a)).0
      ensures match ShortCircuit(PlanStages(Settings(), req, a)).1
              case Some(Refused(f)) => failure == Some(f) && Unanswered(result) && result.cache != HIT
              case Some(Served(content, usage)) =>
                failure == None && result == EMPTY_RESULT.(content := content, usage := usage, cache := HIT)
              case None => failure == None && Unanswered(result) && result.cache != HIT && a.route.Routes?
      ensures result.cache == BYPASS <==> cache.None? || req.stream
      ensures result.rate
           == if ratelimit.Some? && !ChatProperties.CacheAnswers(Settings(), req, a) then RateHeaders(a) else None
    {
      ghost var st := Settings();
      result, failure, log := EMPTY_RESULT, None, [];
      ChatProperties.PlanSplits(st, req, a);
      ghost var read: seq<Stage> := [];
      if cache.Some? && !req.stream {
        log := log + [CallLookup];
        OneMoreRow(read, LookupStage(st, req, a)[0]);
        read := read + LookupStage(st, req, a);
        if a.lookup.Hit? {
          log := log + [CacheHit(a.lookup.usage)];
          RestUnread(read, ChatProperties.AfterLookup(st, a));
          return EMPTY_RESULT.(content := a.lookup.content, usage := a.lookup.usage, cache := HIT), None, log;
        }
        result := result.(cache := MISS);
      }
      assert read == LookupStage(st, req, a);
      ShortCircuitAppend(read, ChatProperties.AfterLookup(st, a));
      var admitted: seq<Action>;
      result, failure, admitted := Admit(result, a);
      log := log + admitted;
    }

    /** Rate limit, candidates and routing; the limiter's account goes into the headers even if it denies. */
    method Admit(before: Result, a: Answers) returns (result: Result, failure: Option<Failure>, log: seq<Action>)
      requires Valid() && ready && before.rate.None?
      ensures log == ShortCircuit(ChatProperties.AfterLookup(Settings(), a)).0
      ensures ShortCircuit(ChatProperties.AfterLookup(Settings(), a)).1
           == (if failure.Some? then Some(Refused(failure.value)) else None)
      ensures failure.None? ==> a.route.Routes?
      ensures result == before.(rate := if ratelimit.Some? then RateHeaders(a) else None)
    {
      ghost var st := Settings();
      result, failure, log := before, None, [];
      ghost var read: seq<Stage> := [];
      assert ChatProperties.AfterLookup(st, a) == CheckStage(st, a) + (ModelStage(a) + RouteStage(a));
      if ratelimit.Some? {
        log := log + [CallCheck];
        OneMoreRow(read, CheckStage(st, a)[0]);
        read := read + CheckStage(st, a);
        if !a.check.Fails? && a.rate.requests > 0 {
          result := result.(rate := Some(a.rate));
        }
        if !a.check.Allows? {
          RestUnread(read, ModelStage(a) + RouteStage(a));
          failure := Some(if a.check.Denies? then RateLimitExceeded(a.check.reason) else PluginFailed(a.check.error));
          return;
        }
      }
      assert read == CheckStage(st, a);
      ShortCircuitAppend(read, ModelStage(a) + RouteStage(a));
      var chosen: seq<Action>;
      failure, chosen := Choose(a);
      log := log + chosen;
    }

    /** The candidates and the router. */
    method Choose(a: Answers) returns (failure: Option<Failure>, log: seq<Action>)
      requires Valid() && ready
      ensures log == ShortCircuit(ModelStage(a) + RouteStage(a)).0
      ensures ShortCircuit(ModelStage(a) + RouteStage(a)).1
           == (if failure.Some? then Some(Refused(failure.value)) else None)
      ensures failure.None? ==> a.route.Routes?
    {
      log := [];
      ghost var rows := RouteStage(a);
      assert rows == [rows[0]] + [rows[1]];
      ghost var read := ModelStage(a);
      OneMoreRow([], read[0]);
      assert [] + [read[0]] == read;
      if !a.modelKnown {
        RestUnread(read, rows);
        return Some(ModelNotFound), log;
      }
      assert router.Some?;
      log := log + [CallRoute];
      OneMoreRow(read, rows[0]);
      assert read + rows == read + [rows[0]] + [rows[1]];
      if a.route.RouteFails? {
        RestUnread(read + [rows[0]], [rows[1]]);
        return Some(PluginFailed(a.route.error)), log;
      }
      if a.route.routes == [] {
        RestUnread(read + [rows[0]], [rows[1]]);
        return Some(NoRouteAvailable), log;
      }
      log := log + [RouteSelected];
      OneMoreRow(read + [rows[0]], rows[1]);
      return None, log;
    }

    /** The loop of `executeNonStream`. */
    method ExecuteNonStream(req: Request, messages: seq<string>, routes: seq<Route>, a: Answers, before: Result)
      returns (result: Result, failure: Option<Failure>, log: seq<Action>)
      requires !req.stream && a.route == Routes(routes) && Unanswered(before)
      ensures log == RunLog(Settings(), routes, messages, false, a)
      ensures Ends(Settings(), req, a, result, failure) && SameHeaders(result, before)
    {
      var n := Fallback.Bound(maxAttempts, |routes|);
      ghost var st := Settings();
      ghost var os := Outcomes(st, routes, false, a);
      result, failure, log := before, None, [];
      var lastErr: Option<CallError> := None;
      var i := 0;
      while i < n
        invariant i <= n && forall j :: 0 <= j < i ==> GoesOn(os[j])
        invariant SoFar(routes, os, messages, false, i, result, lastErr, log) && SameHeaders(result, before)
      {
        var r := routes[i];
        assert os[i] == CollectOutcome(r.provider in upstreams, a.invoke(i));
        if r.provider !in upstreams {
          SkippedRoute(routes, os, messages, false, i, result, lastErr, log);
          lastErr := Some(NotConfigured(r.provider));
          i := i + 1;
          continue;
        }
        var attempted := Attempt(req, i, a);
        if attempted.Answer? {
          EndsHere(os, i);
          WonRun(st, routes, messages, false, a, i);
          ghost var soFar := result;
          result, failure, log := Win(result, r, i, attempted, messages, log, a);
          WonEnds(st, req, routes, a, i, soFar, result);
          return;
        }
        FailedRoute(routes, os, messages, false, i, result, lastErr, log);
        AfterFailure(os, i);
        result := Carrying(result, r, i);
        log := log + [CallInvoke(i, r.provider, messages)] + [UpstreamFailed(i)];
        lastErr := Some(attempted.error);
        i := i + 1;
        if !Retryable(attempted.error) {
          break;
        }
      }
      LostEnds(st, req, routes, messages, a, i, result, lastErr, log);
      log := log + [RequestFailed];
      failure := Some(UpstreamUnavailable(lastErr));
    }

    /** The successful attempt: its response alone goes into the result. */
    method Win(before: Result, r: Route, i: nat, won: Attempted, messages: seq<string>, said: seq<Action>, a: Answers)
      returns (result: Result, failure: Option<Failure>, log: seq<Action>)
      requires won.Answer? && won.content == TextOf(Chunks(a.invoke(i)))
      requires won.usage == LastUsage(NO_USAGE, Chunks(a.invoke(i)))
      ensures result == Carrying(before, r, i).(content := won.content, usage := won.usage)
      ensures log == said + [CallInvoke(i, r.provider, messages)] + SuccessLog(Settings(), Chunks(a.invoke(i)), a)
      ensures failure == ObserverFailure(a, |blockingObservers|)
    {
      result := Carrying(before, r, i).(content := won.content, usage := won.usage);
      var after: seq<Action>;
      failure, after := AfterSuccess(result, a, Chunks(a.invoke(i)));
      log := said + [CallInvoke(i, r.provider, messages)] + after;
    }

    /** One `Invoke` and, if it opens a stream, the collection of that stream and no other. */
    method Attempt(req: Request, i: nat, a: Answers) returns (r: Attempted)
      ensures r.Answer? ==>
                && CollectOutcome(true, a.invoke(i)) == Won
                && r.content == TextOf(Chunks(a.invoke(i))) && r.usage == LastUsage(NO_USAGE, Chunks(a.invoke(i)))
      ensures r.Error? ==> CollectOutcome(true, a.invoke(i)) == Outcome.Failed(r.error)
    {
      OutcomesRelate(true, a.invoke(i));
      match a.invoke(i) {
        case Refuses(e) =>
          return Error(e);
        case Opens(chunks) =>
          var out, _ := Collect.CollectResponse(chunks, req.model, Collect.Naming("", 0));
          if out.Failed? {
            return Error(Upstream(out.error));
          }
          return Answer(out.response.content, out.usage);
      }
    }

    /** The loop of `executeStream`: it settles on the first provider that opens a stream. */
    method ExecuteStream(req: Request, messages: seq<string>, routes: seq<Route>, a: Answers, before: Result)
      returns (result: Result, failure: Option<Failure>, log: seq<Action>)
      requires req.stream && a.route == Routes(routes) && Unanswered(before)
      ensures log == RunLog(Settings(), routes, messages, true, a)
      ensures Ends(Settings(), req, a, result, failure) && SameHeaders(result, before)
    {
      var n := Fallback.Bound(maxAttempts, |routes|);
      ghost var os := Outcomes(Settings(), routes, true, a);
      result, failure, log := before, None, [];
      var lastErr: Option<CallError> := None;
      var i := 0;
      while i < n
        invariant i <= n && forall j :: 0 <= j < i ==> GoesOn(os[j])
        invariant SoFar(routes, os, messages, true, i, result, lastErr, log) && SameHeaders(result, before)
      {
        var r := routes[i];
        assert os[i] == OpenOutcome(r.provider in upstreams, a.invoke(i));
        if r.provider !in upstreams {
          SkippedRoute(routes, os, messages, true, i, result, lastErr, log);
          i := i + 1;
          continue;
        }
        if a.invoke(i).Opens? {
          EndsHere(os, i);
          WonRun(Settings(), routes, messages, true, a, i);
          OpenedEnds(Settings(), req, routes, a, i, result);
          log := log + [CallInvoke(i, r.provider, messages)];
          result := Carrying(result, r, i).(stream := Some(i));
          return;
        }
        var error := a.invoke(i).error;
        FailedRoute(routes, os, messages, true, i, result, lastErr, log);
        AfterFailure(os, i);
        result := Carrying(result, r, i);
        log := log + [CallInvoke(i, r.provider, messages)] + [UpstreamFailed(i)];
        lastErr := Some(error);
        i := i + 1;
        if !Retryable(error) {
          break;
        }
      }
      LostEnds(Settings(), req, routes, messages, a, i, result, lastErr, log);
      log := log + [RequestFailed];
      failure := Some(UpstreamUnavailable(lastErr));
    }

    /** `afterSuccess`: the answers of the cache and of the rate limiter are ignored; the first
        blocking observer that fails ends the round with an error. */
    method AfterSuccess(result: Result, a: Answers, ghost chunks: seq<ResponseChunk>)
      returns (failure: Option<Failure>, log: seq<Action>)
      requires result.content == TextOf(chunks) && result.usage == LastUsage(NO_USAGE, chunks)
      ensures log == SuccessLog(Settings(), chunks, a)
      ensures failure == ObserverFailure(a, |blockingObservers|)
    {
      log := [];
      if cache.Some? {
        log := log + [CallStore(result.content, result.usage)];
      }
      if ratelimit.Some? {
        log := log + [CallCommit(result.usage)];
      }
      assert log == Books(Settings(), TextOf(chunks), result.usage);
      var news: seq<Action>;
      failure, news := Announce(result.usage, a);
      log := log + news;
    }

    /** The event for the queue, then the blocking observers in turn. */
    method Announce(usage: Usage, a: Answers) returns (failure: Option<Failure>, log: seq<Action>)
      ensures log == News(Settings(), usage, a)
      ensures failure == ObserverFailure(a, |blockingObservers|)
    {
      log := [RequestCompleted(usage)];
      ghost var all := News(Settings(), usage, a);
      for k := 0 to |blockingObservers|
        invariant forall j :: 0 <= j < k ==> !a.observerFails(j)
        invariant log + ObserverLog(a.observerFails, |blockingObservers|, k) == all
      {
        if !a.observerFails(k) {
          Associative(log, [CallObserver(k)], ObserverLog(a.observerFails, |blockingObservers|, k + 1));
        }
        log := log + [CallObserver(k)];
        if a.observerFails(k) {
          return Some(ObserverFailed), log;
        }
      }
      assert log + [] == log;
      return None, log;
    }
  }
}
