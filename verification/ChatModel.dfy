/** What one chat request does (internal/pipeline/pipeline.go), as a value: the gates in front of the
    providers as a table that is read until one gate refuses, then the walk along the routes, then the
    bookkeeping after a success.  Plugins may answer anything; `Answers` holds what they say. */
module ChatModel {
  import opened Capabilities
  import opened Fallback

  datatype Route = Route(provider: string, model: string)

  datatype Capability = AuthenticatorCap | RouterCap | UpstreamProviderCap

  /** A compiled pipeline: which capability is bound to which plugin instance. */
  datatype Settings = Settings(anonymous: bool, authn: Option<string>, authz: Option<string>,
                               ratelimit: Option<string>, cache: Option<string>, prompt: Option<string>,
                               router: Option<string>, upstreams: set<string>, blocking: seq<string>,
                               maxAttempts: int, missing: seq<Capability>)

  datatype Request = Request(model: string, stream: bool, messages: seq<string>)

  datatype Gate = Allows | Denies(reason: string) | Fails(error: CallError)

  datatype PromptAnswer = PromptFails(error: CallError) | Prompt(messages: seq<string>)

  datatype LookupAnswer = LookupFails | Miss | Hit(content: string, usage: Usage)

  datatype RouteAnswer = RouteFails(error: CallError) | Routes(routes: seq<Route>)

  /** The rate limiter's account of the caller, which comes with its answer. */
  datatype RateState = RateState(requests: int, remaining: int, reset: int)

  datatype Answers = Answers(authn: Gate, authz: Gate, prompt: PromptAnswer, lookup: LookupAnswer,
                             check: Gate, rate: RateState, modelKnown: bool, route: RouteAnswer,
                             invoke: nat -> Invocation, observerFails: nat -> bool)

  datatype Failure = MissingCapabilities(missing: seq<Capability>)
                   | AuthenticationFailed(reason: string) | AuthorizationDenied(reason: string)
                   | RateLimitExceeded(reason: string) | ModelNotFound | NoRouteAvailable
                   | UpstreamUnavailable(last: Option<CallError>) | ObserverFailed
                   | PluginFailed(error: CallError)

  datatype Action = CallAuthenticate | CallAuthorize | CallPrompt | CallLookup | CallCheck | CallRoute
                  | CallInvoke(index: nat, provider: string, messages: seq<string>)
                  | CallStore(content: string, usage: Usage) | CallCommit(usage: Usage) | CallObserver(which: nat)
                  | RequestStarted | CacheHit(usage: Usage) | RouteSelected | UpstreamFailed(index: nat)
                  | RequestFailed | RequestCompleted(usage: Usage)

  // ---------------------------------------------------------------- the gates

  /** How a request can end before any provider is tried. */
  datatype Ending = Refused(failure: Failure) | Served(content: string, usage: Usage)

  /** One row of the table: what is done, and whether the request ends there. */
  datatype Stage = Stage(actions: seq<Action>, ending: Option<Ending>)

  function GateEnding(g: Gate, denial: string -> Failure): Option<Ending> {
    match g
    case Allows => None
    case Denies(reason) => Some(Refused(denial(reason)))
    case Fails(e) => Some(Refused(PluginFailed(e)))
  }

  function AuthnStage(st: Settings, a: Answers): seq<Stage> {
    if st.anonymous then []
    else [Stage([CallAuthenticate], match a.authn
                                    case Allows => None
                                    case Denies(reason) => Some(Refused(AuthenticationFailed(reason)))
                                    case Fails(e) => Some(Refused(AuthenticationFailed(ErrorText(e)))))]
  }

  function AuthzStage(st: Settings, a: Answers): seq<Stage> {
    if st.authz.None? then [] else [Stage([CallAuthorize], GateEnding(a.authz, r => AuthorizationDenied(r)))]
  }

  function PromptStage(st: Settings, a: Answers): seq<Stage> {
    if st.prompt.None? then []
    else [Stage([CallPrompt], if a.prompt.PromptFails? then Some(Refused(PluginFailed(a.prompt.error))) else None)]
  }

  /** A failing lookup counts as a miss; streaming requests do not ask the cache. */
  function LookupStage(st: Settings, req: Request, a: Answers): seq<Stage> {
    if st.cache.None? || req.stream then []
    else if a.lookup.Hit? then
      [Stage([CallLookup, CacheHit(a.lookup.usage)], Some(Served(a.lookup.content, a.lookup.usage)))]
    else [Stage([CallLookup], None)]
  }

  function CheckStage(st: Settings, a: Answers): seq<Stage> {
    if st.ratelimit.None? then [] else [Stage([CallCheck], GateEnding(a.check, r => RateLimitExceeded(r)))]
  }

  function ModelStage(a: Answers): seq<Stage> {
    [Stage([], if a.modelKnown then None else Some(Refused(ModelNotFound)))]
  }

  function RouteStage(a: Answers): seq<Stage> {
    [Stage([CallRoute], match a.route
                        case RouteFails(e) => Some(Refused(PluginFailed(e)))
                        case Routes(rs) => if rs == [] then Some(Refused(NoRouteAvailable)) else None),
     Stage([RouteSelected], None)]
  }

  function Stages(st: Settings, req: Request, a: Answers): seq<Stage> {
    AuthnStage(st, a) + [Stage([RequestStarted], None)] + AuthzStage(st, a) + PromptStage(st, a)
    + LookupStage(st, req, a) + CheckStage(st, a) + ModelStage(a) + RouteStage(a)
  }

  /** The two halves of the table: who asks for what, and how to serve it. */
  function IdentityStages(st: Settings, a: Answers): seq<Stage> {
    AuthnStage(st, a) + [Stage([RequestStarted], None)] + AuthzStage(st, a) + PromptStage(st, a)
  }

  function PlanStages(st: Settings, req: Request, a: Answers): seq<Stage> {
    LookupStage(st, req, a) + CheckStage(st, a) + ModelStage(a) + RouteStage(a)
  }

  lemma TwoHalves(st: Settings, req: Request, a: Answers)
    ensures Stages(st, req, a) == IdentityStages(st, a) + PlanStages(st, req, a)
  {
  }

  /** Reads the table: the actions up to and including the first row that ends the request. */
  function ShortCircuit(stages: seq<Stage>): (seq<Action>, Option<Ending>) {
    if stages == [] then ([], None)
    else if stages[0].ending.Some? then (stages[0].actions, stages[0].ending)
    else
      var (log, ending) := ShortCircuit(stages[1..]);
      (stages[0].actions + log, ending)
  }

  lemma {:induction false} ShortCircuitAppend(a: seq<Stage>, b: seq<Stage>)
    ensures ShortCircuit(a).1.Some? ==> ShortCircuit(a + b) == ShortCircuit(a)
    ensures ShortCircuit(a).1.None? ==>
              ShortCircuit(a + b) == (ShortCircuit(a).0 + ShortCircuit(b).0, ShortCircuit(b).1)
  {
    if a == [] {
      assert a + b == b;
      assert [] + ShortCircuit(b).0 == ShortCircuit(b).0;
    } else {
      assert (a + b)[1..] == a[1..] + b;
      ShortCircuitAppend(a[1..], b);
      assert (a[0].actions + ShortCircuit(a[1..]).0) + ShortCircuit(b).0
          == a[0].actions + (ShortCircuit(a[1..]).0 + ShortCircuit(b).0);
    }
  }

  /** Reading one more row after rows that all let the request through. */
  lemma OneMoreRow(done: seq<Stage>, row: Stage)
    requires ShortCircuit(done).1.None?
    ensures ShortCircuit(done + [row]) == (ShortCircuit(done).0 + row.actions, row.ending)
  {
    ShortCircuitAppend(done, [row]);
    assert ShortCircuit([row][1..]) == ([], None);
    assert row.actions + [] == row.actions;
  }

  /** The rows after one that ends the request are not read. */
  lemma RestUnread(done: seq<Stage>, rest: seq<Stage>)
    requires ShortCircuit(done).1.Some?
    ensures ShortCircuit(done + rest) == ShortCircuit(done)
  {
    ShortCircuitAppend(done, rest);
  }

  lemma {:induction false} ShortCircuitPasses(stages: seq<Stage>)
    ensures ShortCircuit(stages).1.None? <==> forall s :: s in stages ==> s.ending.None?
    ensures ShortCircuit(stages).1.None? ==>
              forall s, x :: s in stages && x in s.actions ==> x in ShortCircuit(stages).0
    ensures forall x :: x in ShortCircuit(stages).0 ==> exists s :: s in stages && x in s.actions
  {
    if stages != [] {
      ShortCircuitPasses(stages[1..]);
      assert stages == [stages[0]] + stages[1..];
    }
  }

  // ---------------------------------------------------------------- the providers

  function Routed(a: Answers): seq<Route> {
    if a.route.Routes? then a.route.routes else []
  }

  /** The messages the provider sees: the prompt provider's, if it resolved any. */
  function Messages(st: Settings, req: Request, a: Answers): seq<string> {
    if st.prompt.Some? && a.prompt.Prompt? && a.prompt.messages != [] then a.prompt.messages else req.messages
  }

  function IsConfigured(st: Settings, routes: seq<Route>): nat -> bool {
    (i: nat) => i < |routes| && routes[i].provider in st.upstreams
  }

  /** What each route within the attempt bound would come to. */
  function Outcomes(st: Settings, routes: seq<Route>, stream: bool, a: Answers): (os: seq<Outcome>)
    ensures |os| == Bound(st.maxAttempts, |routes|)
  {
    var n := Bound(st.maxAttempts, |routes|);
    if stream then OpenOutcomes(IsConfigured(st, routes), a.invoke, n)
    else CollectOutcomes(IsConfigured(st, routes), a.invoke, n)
  }

  /** One attempt: an invocation, and an `upstream.error` event if it failed. */
  function AttemptActions(route: Route, o: Outcome, messages: seq<string>, i: nat): seq<Action> {
    match o
    case Skipped => []
    case Failed(_) => [CallInvoke(i, route.provider, messages), UpstreamFailed(i)]
    case Won => [CallInvoke(i, route.provider, messages)]
  }

  /** The attempts on the first `n` routes. */
  function AttemptLog(routes: seq<Route>, os: seq<Outcome>, messages: seq<string>, n: nat): seq<Action>
    requires n <= |os| <= |routes|
  {
    if n == 0 then []
    else AttemptLog(routes, os, messages, n - 1) + AttemptActions(routes[n - 1], os[n - 1], messages, n - 1)
  }

  /** The blocking observers from number `k` on, up to the first that fails. */
  function ObserverLog(fails: nat -> bool, n: nat, k: nat): seq<Action>
    requires k <= n
    decreases n - k
  {
    if k == n then []
    else if fails(k) then [CallObserver(k)]
    else [CallObserver(k)] + ObserverLog(fails, n, k + 1)
  }

  /** The bookkeeping of a success: cache, then usage. */
  function Books(st: Settings, content: string, usage: Usage): seq<Action> {
    (if st.cache.Some? then [CallStore(content, usage)] else [])
    + (if st.ratelimit.Some? then [CallCommit(usage)] else [])
  }

  /** The news of a success: the event, then the blocking observers. */
  function News(st: Settings, usage: Usage, a: Answers): seq<Action> {
    [RequestCompleted(usage)] + ObserverLog(a.observerFails, |st.blocking|, 0)
  }

  /** What follows a collected success. */
  function SuccessLog(st: Settings, chunks: seq<ResponseChunk>, a: Answers): seq<Action> {
    Books(st, TextOf(chunks), LastUsage(NO_USAGE, chunks)) + News(st, LastUsage(NO_USAGE, chunks), a)
  }

  function Chunks(v: Invocation): seq<ResponseChunk> {
    if v.Opens? then v.chunks else []
  }

  /** After the attempts. A stream that was opened leaves the rest to its relay. */
  function Aftermath(st: Settings, os: seq<Outcome>, stream: bool, a: Answers): seq<Action> {
    match Walk(os, 0)
    case WonAt(w) => if stream then [] else SuccessLog(st, Chunks(a.invoke(w)), a)
    case _ => [RequestFailed]
  }

  /** From the first attempt on. */
  function RunLog(st: Settings, routes: seq<Route>, messages: seq<string>, stream: bool, a: Answers): seq<Action> {
    var os := Outcomes(st, routes, stream, a);
    AttemptLog(routes, os, messages, Visited(os)) + Aftermath(st, os, stream, a)
  }

  lemma WonAttempts(routes: seq<Route>, os: seq<Outcome>, messages: seq<string>, i: nat)
    requires i < |os| <= |routes| && os[i].Won?
    ensures AttemptLog(routes, os, messages, i + 1)
         == AttemptLog(routes, os, messages, i) + [CallInvoke(i, routes[i].provider, messages)]
  {
  }

  lemma WonRun(st: Settings, routes: seq<Route>, messages: seq<string>, stream: bool, a: Answers, i: nat)
    requires Walk(Outcomes(st, routes, stream, a), 0) == WonAt(i)
    ensures i < |Outcomes(st, routes, stream, a)|
    ensures RunLog(st, routes, messages, stream, a)
         == AttemptLog(routes, Outcomes(st, routes, stream, a), messages, i)
            + [CallInvoke(i, routes[i].provider, messages)]
            + if stream then [] else SuccessLog(st, Chunks(a.invoke(i)), a)
  {
    var os := Outcomes(st, routes, stream, a);
    WalkFrom(os, 0);
    WonAttempts(routes, os, messages, i);
  }

  lemma LostRun(st: Settings, routes: seq<Route>, messages: seq<string>, stream: bool, a: Answers)
    requires !Walk(Outcomes(st, routes, stream, a), 0).WonAt?
    ensures var os := Outcomes(st, routes, stream, a);
            RunLog(st, routes, messages, stream, a) == AttemptLog(routes, os, messages, Visited(os)) + [RequestFailed]
  {
  }

  /** Everything one request does, relay aside. */
  function ChatLog(st: Settings, req: Request, a: Answers): seq<Action> {
    if st.missing != [] then []
    else
      var (log, ending) := ShortCircuit(Stages(st, req, a));
      if ending.Some? then log
      else log + RunLog(st, Routed(a), Messages(st, req, a), req.stream, a)
  }

  function NotConfigured(provider: string): CallError {
    Plain("provider " + provider + " not configured")
  }

  /** The error the final message quotes: where collecting, a skipped route sets it too. */
  function LastError(routes: seq<Route>, os: seq<Outcome>, stream: bool, n: nat): Option<CallError>
    requires n <= |os| <= |routes|
  {
    if n == 0 then None
    else match os[n - 1]
         case Failed(e) => Some(e)
         case Skipped =>
           if stream then LastError(routes, os, stream, n - 1)
           else Some(NotConfigured(routes[n - 1].provider))
         case Won => LastError(routes, os, stream, n - 1)
  }
}
