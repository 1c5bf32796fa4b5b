/** What requests cost and report, added up over any sequence of requests: the usage committed to the
    rate limiter and the terminal events, from the pipeline and from the relays it left behind. */
module Accounting {
  import opened Capabilities
  import opened Fallback
  import opened ChatModel
  import opened ChatProperties
  import opened Sequences
  import Relay
  import RelayEnding
  import RelayCharges
  import RelayProgress

  /** A request with what the plugins answered and, if it opened a stream, how far its relay got. */
  datatype Handled = Handled(req: Request, answers: Answers,
                             cfg: Relay.Config, run: seq<Relay.Label>, relay: Relay.State)

  function Plus(a: Usage, b: Usage): Usage {
    Usage(a.input + b.input, a.output + b.output, a.total + b.total)
  }

  function Commits(log: seq<Action>): seq<Usage> {
    if log == [] then []
    else CommitIn(log[0]) + Commits(log[1..])
  }

  function CommitIn(x: Action): seq<Usage> { if x.CallCommit? then [x.usage] else [] }

  function Terminals(log: seq<Action>): seq<Action> {
    if log == [] then []
    else TerminalIn(log[0]) + Terminals(log[1..])
  }

  function TerminalIn(x: Action): seq<Action> { if x.RequestCompleted? || x.RequestFailed? then [x] else [] }

  function RelayCommits(log: seq<Relay.Action>): seq<Usage> {
    if log == [] then []
    else (if log[0].Commit? then [log[0].usage] else []) + RelayCommits(log[1..])
  }

  function Sum(usages: seq<Usage>): Usage {
    if usages == [] then NO_USAGE else Plus(usages[0], Sum(usages[1..]))
  }

  lemma {:induction false} PicksAppend(a: seq<Action>, b: seq<Action>)
    ensures Commits(a + b) == Commits(a) + Commits(b)
    ensures Terminals(a + b) == Terminals(a) + Terminals(b)
  {
    if a == [] {
      assert a + b == b;
    } else {
      assert (a + b)[1..] == a[1..] + b;
      PicksAppend(a[1..], b);
      Associative(CommitIn(a[0]), Commits(a[1..]), Commits(b));
      Associative(TerminalIn(a[0]), Terminals(a[1..]), Terminals(b));
    }
  }

  lemma {:induction false} PicksNone(log: seq<Action>)
    ensures (forall x :: x in log ==> Rank(x) != 11) ==> Commits(log) == []
    ensures (forall x :: x in log ==> Rank(x) != 12) ==> Terminals(log) == []
  {
    if log != [] {
      assert log[0] in log && forall x :: x in log[1..] ==> x in log;
      PicksNone(log[1..]);
    }
  }

  lemma {:induction false} RelayCommitsAre(log: seq<Relay.Action>)
    ensures var only := RelayEnding.Only(RelayEnding.IsCommit, log);
            && |RelayCommits(log)| == |only|
            && forall i :: 0 <= i < |only| ==> only[i] == Relay.Commit(RelayCommits(log)[i])
  {
    if log != [] {
      RelayCommitsAre(log[1..]);
    }
  }

  lemma BooksPicks(st: Settings, content: string, usage: Usage)
    ensures Commits(Books(st, content, usage)) == if st.ratelimit.Some? then [usage] else []
    ensures Terminals(Books(st, content, usage)) == []
  {
    var store := if st.cache.Some? then [CallStore(content, usage)] else [];
    PicksNone(store);
    PicksNone(Books(st, content, usage));
    if st.ratelimit.Some? {
      PicksAppend(store, [CallCommit(usage)]);
      assert Commits([CallCommit(usage)]) == CommitIn(CallCommit(usage)) + Commits([CallCommit(usage)][1..]);
    }
  }

  lemma NewsPicks(st: Settings, usage: Usage, a: Answers)
    ensures Commits(News(st, usage, a)) == [] && Terminals(News(st, usage, a)) == [RequestCompleted(usage)]
  {
    var done, observers := RequestCompleted(usage), ObserverLog(a.observerFails, |st.blocking|, 0);
    ObserversOrdered(a.observerFails, |st.blocking|, 0);
    PicksNone(observers);
    assert News(st, usage, a)[1..] == observers && News(st, usage, a)[0] == done;
  }

  lemma SuccessPicks(st: Settings, chunks: seq<ResponseChunk>, a: Answers)
    ensures Commits(SuccessLog(st, chunks, a)) == if st.ratelimit.Some? then [LastUsage(NO_USAGE, chunks)] else []
    ensures Terminals(SuccessLog(st, chunks, a)) == [RequestCompleted(LastUsage(NO_USAGE, chunks))]
  {
    var usage := LastUsage(NO_USAGE, chunks);
    BooksPicks(st, TextOf(chunks), usage);
    NewsPicks(st, usage, a);
    PicksAppend(Books(st, TextOf(chunks), usage), News(st, usage, a));
  }

  /** The route list walk of a request whose gates are open. */
  function Walked(st: Settings, h: Handled): Verdict {
    Walk(Outcomes(st, Routed(h.answers), h.req.stream, h.answers), 0)
  }

  predicate Runs(st: Settings, h: Handled) {
    st.missing == [] && GatesOpen(st, h.req, h.answers)
  }

  /** The request left a relay behind. */
  predicate Streams(st: Settings, h: Handled) {
    Runs(st, h) && h.req.stream && Walked(st, h).WonAt?
  }

  /** What the provider that the walk settled on sends. */
  function Opened(st: Settings, h: Handled): seq<ResponseChunk> {
    if Walked(st, h).WonAt? then Chunks(h.answers.invoke(Walked(st, h).index)) else []
  }

  /** A relay belongs to the stream its request opened, and has gone as far as it can: it has ended,
      or it is left sending to a writer that has stopped. */
  ghost predicate Possible(st: Settings, h: Handled) {
    Streams(st, h) ==>
      && Relay.Reached(h.cfg, h.run, h.relay) && RelayProgress.Stuck(h.cfg, h.relay)
      && Relay.Stream(h.cfg) == Opened(st, h) && (h.cfg.limited <==> st.ratelimit.Some?)
  }

  /** The request's relay is left sending to a writer that has stopped. */
  predicate Leaks(st: Settings, h: Handled) {
    Streams(st, h) && RelayProgress.Leaked(h.relay)
  }

  /** What the request itself does to the account: at most one commit and one terminal event. */
  lemma ChatPicks(st: Settings, h: Handled)
    ensures var log := ChatLog(st, h.req, h.answers);
            && Commits(log) == (if Runs(st, h) && !h.req.stream && Walked(st, h).WonAt? && st.ratelimit.Some?
                                then [LastUsage(NO_USAGE, Chunks(h.answers.invoke(Walked(st, h).index)))] else [])
            && (!Runs(st, h) || Streams(st, h) ==> Terminals(log) == [])
            && (Runs(st, h) && !Streams(st, h) ==> |Terminals(log)| == 1)
  {
    var a := h.answers;
    GatesDecide(st, h.req, a);
    StagesOrdered(st, h.req, a);
    var gates := ShortCircuit(Stages(st, h.req, a)).0;
    PicksNone(gates);
    if Runs(st, h) {
      var os := Outcomes(st, Routed(a), h.req.stream, a);
      var attempts := AttemptLog(Routed(a), os, Messages(st, h.req, a), Visited(os));
      AttemptsOrdered(Routed(a), os, Messages(st, h.req, a), Visited(os));
      PicksNone(attempts);
      PicksAppend(attempts, Aftermath(st, os, h.req.stream, a));
      PicksAppend(gates, RunLog(st, Routed(a), Messages(st, h.req, a), h.req.stream, a));
      if Walk(os, 0).WonAt? {
        SuccessPicks(st, Chunks(a.invoke(Walk(os, 0).index)), a);
      }
    }
  }

  /** The commits of one request, relay included. */
  function CommitsOf(st: Settings, h: Handled): seq<Usage> {
    Commits(ChatLog(st, h.req, h.answers)) + if Streams(st, h) then RelayCommits(h.relay.log) else []
  }

  /** A relay commits only a positive total. */
  function Billable(u: Usage): Usage {
    if u.total > 0 then u else NO_USAGE
  }

  /** What one request owes: the usage of the collected response, or the last usage the relay saw if
      it has tokens; failed attempts, refusals, cache hits and relays that never end owe nothing. */
  function Owed(st: Settings, h: Handled): Usage {
    if !Runs(st, h) || st.ratelimit.None? || !Walked(st, h).WonAt? || Leaks(st, h) then NO_USAGE
    else if !h.req.stream then LastUsage(NO_USAGE, Opened(st, h))
    else Billable(LastUsage(NO_USAGE, h.relay.received))
  }

  /** A relay at its end has settled its account; a leaked one never will. */
  lemma RelayOwes(cfg: Relay.Config, run: seq<Relay.Label>, s: Relay.State)
    requires Relay.Reached(cfg, run, s) && RelayProgress.Stuck(cfg, s)
    ensures RelayProgress.Leaked(s) ==>
              RelayCommits(s.log) == [] && RelayEnding.Only(RelayEnding.IsTerminal, s.log) == []
    ensures !RelayProgress.Leaked(s) ==>
              && RelayCommits(s.log) == (var u := LastUsage(NO_USAGE, s.received);
                                         if cfg.limited && u.total > 0 then [u] else [])
              && |RelayEnding.Only(RelayEnding.IsTerminal, s.log)| == 1
  {
    RelayEnding.LogInvariant(cfg, run, s);
    RelayProgress.StuckStates(cfg, s);
    RelayCommitsAre(s.log);
    if RelayProgress.Leaked(s) {
      RelayProgress.LeakedRelayNeverSettles(cfg, run, s, []);
    } else {
      RelayEnding.Settled(cfg, s);
    }
  }

  lemma SumOne(u: Usage)
    ensures Sum([u]) == u && Sum([]) == NO_USAGE
  {
    assert Sum([u]) == Plus(u, Sum([u][1..]));
  }

  /** The commits of a request are the one usage it owes, or none. */
  lemma CommitsAreOwed(st: Settings, h: Handled)
    requires Possible(st, h)
    ensures CommitsOf(st, h) == [Owed(st, h)] || (CommitsOf(st, h) == [] && Owed(st, h) == NO_USAGE)
    ensures CommitsOf(st, h) != [] ==> Runs(st, h) && st.ratelimit.Some?
  {
    ChatPicks(st, h);
    if Streams(st, h) {
      RelayOwes(h.cfg, h.run, h.relay);
    }
  }

  /** Each request commits at most once, and only behind a rate-limit check that did not deny; what
      it commits is what it owes. */
  lemma CommitsWhatItOwes(st: Settings, h: Handled)
    requires Possible(st, h)
    ensures |CommitsOf(st, h)| <= 1 && Sum(CommitsOf(st, h)) == Owed(st, h)
    ensures CommitsOf(st, h) != [] ==>
              st.ratelimit.Some? && h.answers.check.Allows? && CallCheck in ChatLog(st, h.req, h.answers)
  {
    CommitsAreOwed(st, h);
    SumOne(Owed(st, h));
    if CommitsOf(st, h) != [] {
      ProvidersBehindGates(st, h.req, h.answers);
    }
  }

  /** Each request attempts exactly one terminal event once its gates are open and its relay, if it
      has one, has not leaked; and none otherwise. */
  lemma OneTerminalEventEach(st: Settings, h: Handled)
    requires Possible(st, h)
    ensures |Terminals(ChatLog(st, h.req, h.answers))|
            + (if Streams(st, h) then |RelayEnding.Only(RelayEnding.IsTerminal, h.relay.log)| else 0)
         == if Runs(st, h) && !Leaks(st, h) then 1 else 0
  {
    ChatPicks(st, h);
    if Streams(st, h) {
      RelayOwes(h.cfg, h.run, h.relay);
    }
  }

  // ---------------------------------------------------------------- what was used against what was committed

  /** What the provider says the request used, from its answers alone. */
  function Used(st: Settings, h: Handled): Usage {
    if !Runs(st, h) || st.ratelimit.None? then NO_USAGE
    else if !h.req.stream then LastUsage(NO_USAGE, Opened(st, h))
    else Billable(LastUsage(NO_USAGE, Opened(st, h)))
  }

  /** As long as its context outlives the relay, a streaming request leaks it exactly if the provider
      goes on after an error chunk, and pays for what it used exactly if it does not leak or used nothing. */
  lemma StreamPays(st: Settings, h: Handled)
    requires Possible(st, h) && Streams(st, h) && RelayProgress.Undisturbed(h.cfg, h.run)
    ensures Leaks(st, h) <==> !ErrorOnlyLast(Opened(st, h))
    ensures Owed(st, h) == Used(st, h) <==> ErrorOnlyLast(Opened(st, h)) || Used(st, h) == NO_USAGE
  {
    RelayProgress.UndisturbedOutcome(h.cfg, h.run, h.relay);
  }

  /** A request like `h`, as far as the plugins' answers go, whatever becomes of its stream. */
  ghost predicate Alike(g: Handled, h: Handled) {
    g.req == h.req && g.answers == h.answers
  }

  /** Whatever becomes of the stream, the request pays for what it used. */
  ghost predicate AlwaysPaid(st: Settings, h: Handled) {
    forall g :: Alike(g, h) && Possible(st, g) ==> Owed(st, g) == Used(st, g)
  }

  /** When the context may end at any time, a streaming request is sure to pay for what it used if and
      only if it used nothing and no chunk up to its first error reports tokens. */
  lemma AlwaysPaidExactly(st: Settings, h: Handled)
    requires Streams(st, h) && st.ratelimit.Some?
    ensures AlwaysPaid(st, h) <==> Used(st, h) == NO_USAGE && RelayCharges.NoTokensBeforeError(Opened(st, h))
  {
    if Used(st, h) == NO_USAGE && RelayCharges.NoTokensBeforeError(Opened(st, h)) {
      forall g | Alike(g, h) && Possible(st, g) ensures Owed(st, g) == Used(st, g) {
        NothingOwed(st, g);
      }
    } else {
      var g := PaysWrongly(st, h);
    }
  }

  lemma NothingOwed(st: Settings, h: Handled)
    requires Possible(st, h) && Streams(st, h) && RelayCharges.NoTokensBeforeError(Opened(st, h))
    ensures Owed(st, h) == NO_USAGE
  {
    if !Leaks(st, h) && st.ratelimit.Some? {
      Relay.Invariant(h.cfg, h.run, h.relay);
      RelayProgress.StuckStates(h.cfg, h.relay);
      var q := RelayCharges.SettledFor(h.cfg, h.run, h.relay);
      assert forall i :: 0 <= i <= |h.cfg.replies| ==> h.cfg.replies[..i] == Opened(st, h)[..i];
      assert forall i :: 0 <= i < |h.cfg.replies| ==> h.cfg.replies[i] == Opened(st, h)[i];
      RelayCharges.NoTokensNoDue(h.cfg, q);
    }
  }

  lemma PaysWrongly(st: Settings, h: Handled) returns (g: Handled)
    requires Streams(st, h) && st.ratelimit.Some?
    requires Used(st, h) != NO_USAGE || !RelayCharges.NoTokensBeforeError(Opened(st, h))
    ensures Alike(g, h) && Possible(st, g) && Owed(st, g) != Used(st, g)
  {
    var cfg := Relay.Config(Opened(st, h), Relay.Eof, true, false);
    assert Relay.Stream(cfg) == Opened(st, h);
    RelayCharges.NeverDueMeans(cfg);
    RelayCharges.AlwaysPaysExactly(cfg);
    var run, s :| Relay.Reached(cfg, run, s) && RelayProgress.Stuck(cfg, s)
      && RelayEnding.Only(RelayEnding.IsCommit, s.log) != RelayEnding.CommitDue(cfg, Relay.Stream(cfg));
    g := Handled(h.req, h.answers, cfg, run, s);
    Relay.Invariant(cfg, run, s);
    RelayProgress.StuckStates(cfg, s);
    if RelayProgress.Leaked(s) {
      RelayProgress.LeakedRelayNeverSettles(cfg, run, s, []);
    } else {
      RelayCharges.GoneHasCharged(cfg, run, s);
    }
  }

  /** If the request streams, its context outlives the relay, and its provider stops at its first error. */
  ghost predicate Undisturbed(st: Settings, h: Handled) {
    Streams(st, h) ==> RelayProgress.Undisturbed(h.cfg, h.run) && ErrorOnlyLast(Opened(st, h))
  }

  lemma PaysForUse(st: Settings, h: Handled)
    requires Possible(st, h) && Undisturbed(st, h)
    ensures Owed(st, h) == Used(st, h)
  {
    if Streams(st, h) {
      StreamPays(st, h);
    }
  }

  function AllCommits(st: Settings, hs: seq<Handled>): seq<Usage> {
    if hs == [] then [] else CommitsOf(st, hs[0]) + AllCommits(st, hs[1..])
  }

  function AllOwed(st: Settings, hs: seq<Handled>): Usage {
    if hs == [] then NO_USAGE else Plus(Owed(st, hs[0]), AllOwed(st, hs[1..]))
  }

  lemma {:induction false} SumAppend(a: seq<Usage>, b: seq<Usage>)
    ensures Sum(a + b) == Plus(Sum(a), Sum(b))
  {
    if a == [] {
      assert a + b == b;
    } else {
      assert (a + b)[1..] == a[1..] + b;
      SumAppend(a[1..], b);
    }
  }

  /** Usages add up component by component. */
  lemma SumMeans(us: seq<Usage>, u: Usage)
    ensures Sum([]) == Usage(0, 0, 0)
    ensures Sum(us + [u]) == Usage(Sum(us).input + u.input, Sum(us).output + u.output, Sum(us).total + u.total)
  {
    SumAppend(us, [u]);
    SumOne(u);
  }

  function AllUsed(st: Settings, hs: seq<Handled>): Usage {
    if hs == [] then NO_USAGE else Plus(Used(st, hs[0]), AllUsed(st, hs[1..]))
  }

  /** Conservation of usage: over any sequence of requests the total committed is the total owed. */
  lemma {:induction false} TotalCommitted(st: Settings, hs: seq<Handled>)
    requires forall h :: h in hs ==> Possible(st, h)
    ensures Sum(AllCommits(st, hs)) == AllOwed(st, hs) && |AllCommits(st, hs)| <= |hs|
  {
    if hs != [] {
      CommitsWhatItOwes(st, hs[0]);
      TotalCommitted(st, hs[1..]);
      SumAppend(CommitsOf(st, hs[0]), AllCommits(st, hs[1..]));
    }
  }

  /** And over any sequence of undisturbed requests it is what the providers say was used. */
  lemma {:induction false} TotalUsed(st: Settings, hs: seq<Handled>)
    requires forall h :: h in hs ==> Possible(st, h) && Undisturbed(st, h)
    ensures Sum(AllCommits(st, hs)) == AllUsed(st, hs)
  {
    if hs != [] {
      PaysForUse(st, hs[0]);
      CommitsWhatItOwes(st, hs[0]);
      TotalUsed(st, hs[1..]);
      SumAppend(CommitsOf(st, hs[0]), AllCommits(st, hs[1..]));
    }
  }
}
