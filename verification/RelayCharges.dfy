/** What a streamed response is charged for: which usage commits are possible when the request context
    may end at any time, when the charge is sure, and when it is right. */
module RelayCharges {
  import opened Capabilities
  import opened Relay
  import opened RelayEnding
  import opened RelayProgress

  lemma NothingDue(cfg: Config)
    ensures CommitDue(cfg, []) == []
  {
  }

  /** A relay that has gone has committed what is due for the chunks it passed on, for good. */
  lemma GoneHasCharged(cfg: Config, run: seq<Label>, s: State)
    requires Reached(cfg, run, s) && s.relay.RelayGone?
    ensures Only(IsCommit, s.log) == CommitDue(cfg, s.received)
  {
    LogInvariant(cfg, run, s);
    Settled(cfg, s);
  }

  /** Once the relay has gone while the context lives, the charge is for the whole stream, and stays. */
  lemma ChargedForAll(cfg: Config, run: seq<Label>, s: State, more: seq<Label>)
    requires Reached(cfg, run, s) && s.relay.RelayGone? && !s.ctxDone && CanRun(cfg, s, more)
    ensures Only(IsCommit, After(cfg, s, more).log) == CommitDue(cfg, Stream(cfg))
  {
    RelayAccumulates(cfg, run, s);
    assert Absorbed(s) == s.received;
    GoneIsForever(cfg, s, more);
    RunAppend(cfg, INIT, run, more);
    GoneHasCharged(cfg, run + more, After(cfg, s, more));
  }

  /** A synthesised error chunk carries no usage. */
  lemma ErrorChunkIsFree(cfg: Config, chunks: seq<ResponseChunk>, c: ResponseChunk)
    requires c.usage.None?
    ensures CommitDue(cfg, chunks + [c]) == CommitDue(cfg, chunks)
  {
    LastUsageSnoc(NO_USAGE, chunks, c);
  }

  /** The chunks a relay settles for: a prefix of the replies, with the synthesised chunk or without. */
  lemma SettledFor(cfg: Config, run: seq<Label>, s: State) returns (q: seq<ResponseChunk>)
    requires Reached(cfg, run, s) && s.relay.RelayGone?
    ensures q <= cfg.replies && ErrorOnlyLast(q) && CommitDue(cfg, s.received) == CommitDue(cfg, q)
  {
    Invariant(cfg, run, s);
    NothingHeld(cfg, s);
    if s.synthetic != [] {
      SyntheticMeans(cfg, run, s);
    }
    q := PrefixReceived(cfg, s.received, s.dropped, cfg.replies[..s.next], s.synthetic);
  }

  lemma PrefixReceived(cfg: Config, received: seq<ResponseChunk>, dropped: seq<ResponseChunk>,
                       replies: seq<ResponseChunk>, synthetic: seq<ResponseChunk>) returns (q: seq<ResponseChunk>)
    requires received + dropped == replies + synthetic && |synthetic| <= 1 && ErrorOnlyLast(received)
    requires synthetic != [] ==> synthetic[0].usage.None?
    ensures q <= replies && ErrorOnlyLast(q) && CommitDue(cfg, received) == CommitDue(cfg, q)
  {
    var all := replies + synthetic;
    assert received == all[..|received|] && replies == all[..|replies|];
    if |received| <= |replies| {
      q := received;
    } else {
      q := replies;
      assert received == replies + [synthetic[0]];
      assert forall i :: 0 <= i < |q| ==> q[i] == received[i];
      ErrorChunkIsFree(cfg, replies, synthetic[0]);
    }
  }

  /** Some maximal run ends with exactly the usage commits `charge`. */
  ghost predicate MayCharge(cfg: Config, charge: seq<Action>) {
    exists run, s :: Reached(cfg, run, s) && Stuck(cfg, s) && Only(IsCommit, s.log) == charge
  }

  /** A stream that breaks off after `q` owes `charge`. */
  predicate DueFor(cfg: Config, q: seq<ResponseChunk>, charge: seq<Action>) {
    q <= cfg.replies && ErrorOnlyLast(q) && charge == CommitDue(cfg, q)
  }

  lemma ChargeIsDue(cfg: Config, run: seq<Label>, s: State) returns (q: seq<ResponseChunk>)
    requires Reached(cfg, run, s) && Stuck(cfg, s)
    ensures DueFor(cfg, q, Only(IsCommit, s.log))
  {
    Invariant(cfg, run, s);
    StuckStates(cfg, s);
    if Leaked(s) {
      LeakedRelayNeverSettles(cfg, run, s, []);
      q := [];
    } else {
      GoneHasCharged(cfg, run, s);
      q := SettledFor(cfg, run, s);
    }
  }

  lemma DueIsCharged(cfg: Config, q: seq<ResponseChunk>)
    requires q <= cfg.replies && ErrorOnlyLast(q)
    ensures MayCharge(cfg, CommitDue(cfg, q))
  {
    assert q == cfg.replies[..|q|];
    var run, s := BreakOff(cfg, |q|);
    Invariant(cfg, run, s);
    var run', t, more := RunToStuck(cfg, run, s);
    GoneIsForever(cfg, s, more);
    GoneHasCharged(cfg, run', t);
  }

  /** The charges that are possible: exactly those due for a prefix of the replies that does not go on
      after an error chunk. */
  lemma ChargesExactly(cfg: Config, charge: seq<Action>)
    ensures MayCharge(cfg, charge) <==> exists q :: DueFor(cfg, q, charge)
  {
    if MayCharge(cfg, charge) {
      var run, s :| Reached(cfg, run, s) && Stuck(cfg, s) && Only(IsCommit, s.log) == charge;
      var q := ChargeIsDue(cfg, run, s);
    }
    if q :| DueFor(cfg, q, charge) {
      DueIsCharged(cfg, q);
    }
  }

  /** Every maximal run charges for the whole stream. */
  ghost predicate AlwaysPays(cfg: Config) {
    forall run, s :: Reached(cfg, run, s) && Stuck(cfg, s) ==> Only(IsCommit, s.log) == CommitDue(cfg, Stream(cfg))
  }

  /** Nothing is ever due: neither for the whole stream nor for a prefix it may break off after. */
  ghost predicate NeverDue(cfg: Config) {
    CommitDue(cfg, Stream(cfg)) == []
    && forall q :: q <= cfg.replies && ErrorOnlyLast(q) ==> CommitDue(cfg, q) == []
  }

  /** When the context may end, the charge is always for the whole stream if and only if nothing is
      ever due. */
  lemma AlwaysPaysExactly(cfg: Config)
    ensures AlwaysPays(cfg) <==> NeverDue(cfg)
  {
    NothingDue(cfg);
    if AlwaysPays(cfg) {
      forall q | q <= cfg.replies && ErrorOnlyLast(q)
        ensures CommitDue(cfg, q) == CommitDue(cfg, Stream(cfg))
      {
        DueIsCharged(cfg, q);
      }
      assert [] <= cfg.replies && CommitDue(cfg, []) == CommitDue(cfg, Stream(cfg));
    }
    if NeverDue(cfg) {
      forall run, s | Reached(cfg, run, s) && Stuck(cfg, s)
        ensures Only(IsCommit, s.log) == CommitDue(cfg, Stream(cfg))
      {
        var q := ChargeIsDue(cfg, run, s);
      }
    }
  }

  /** No chunk up to and including the first error chunk reports tokens. */
  ghost predicate NoTokensBeforeError(chunks: seq<ResponseChunk>) {
    forall i :: 0 <= i < |chunks| && ErrorFree(chunks[..i]) ==> TokenFree(chunks[i])
  }

  predicate TokenFree(c: ResponseChunk) {
    c.usage.Some? ==> c.usage.value.total <= 0
  }

  lemma {:induction false} TokenFreeUsage(q: seq<ResponseChunk>)
    requires forall i :: 0 <= i < |q| ==> TokenFree(q[i])
    ensures LastUsage(NO_USAGE, q).total <= 0
    decreases |q|
  {
    if q != [] {
      var n := |q| - 1;
      assert q == q[..n] + [q[n]];
      LastUsageSnoc(NO_USAGE, q[..n], q[n]);
      TokenFreeUsage(q[..n]);
    }
  }

  lemma PrefixDue(cfg: Config, i: nat)
    requires i < |cfg.replies| && ErrorFree(cfg.replies[..i]) && !TokenFree(cfg.replies[i]) && cfg.limited
    ensures var q := cfg.replies[..i + 1]; ErrorOnlyLast(q) && CommitDue(cfg, q) != []
  {
    assert cfg.replies[..i + 1] == cfg.replies[..i] + [cfg.replies[i]];
    LastUsageSnoc(NO_USAGE, cfg.replies[..i], cfg.replies[i]);
    assert forall j :: 0 <= j < i ==> cfg.replies[..i + 1][j] == cfg.replies[..i][j];
  }

  lemma NoTokensNoDue(cfg: Config, q: seq<ResponseChunk>)
    requires NoTokensBeforeError(cfg.replies) && q <= cfg.replies && ErrorOnlyLast(q)
    ensures CommitDue(cfg, q) == []
  {
    forall i | 0 <= i < |q| ensures TokenFree(q[i]) {
      assert forall j :: 0 <= j < i ==> cfg.replies[..i][j] == q[j];
      assert ErrorFree(cfg.replies[..i]) && cfg.replies[i] == q[i];
    }
    TokenFreeUsage(q);
  }

  /** The same condition on the chunks one by one. */
  lemma NeverDueMeans(cfg: Config)
    ensures NeverDue(cfg) <==>
              !cfg.limited || (NoTokensBeforeError(cfg.replies) && LastUsage(NO_USAGE, Stream(cfg)).total <= 0)
  {
    if cfg.limited && NeverDue(cfg) {
      forall i | 0 <= i < |cfg.replies| && ErrorFree(cfg.replies[..i]) ensures TokenFree(cfg.replies[i]) {
        if !TokenFree(cfg.replies[i]) {
          PrefixDue(cfg, i);
        }
      }
    }
    if cfg.limited && NoTokensBeforeError(cfg.replies) {
      forall q | q <= cfg.replies && ErrorOnlyLast(q) ensures CommitDue(cfg, q) == [] {
        NoTokensNoDue(cfg, q);
      }
    }
  }

  /** Nobody needs to cancel for a charge to be lost: an error chunk stops the writer, the request ends
      and with it the context, the forwarder's next call fails, and its error chunk leaks the relay. */
  lemma LostAfterError(cfg: Config, k: nat) returns (run: seq<Label>, s: State, more: seq<Label>)
    requires k <= |cfg.replies| && ErrorOnlyLast(cfg.replies[..k]) && !ErrorFree(cfg.replies[..k])
    ensures Reached(cfg, run, s) && !s.ctxDone && s.writer.Stopped? && CanRun(cfg, s, more)
    ensures var t := After(cfg, s, more);
            Reached(cfg, run + more, t) && Stuck(cfg, t) && Leaked(t) && Only(IsCommit, t.log) == []
  {
    run, s := DeliverFirst(cfg, k);
    var run1, s1 := Then(cfg, run, s, ContextDone);
    run1, s1 := Then(cfg, run1, s1, CallError("context canceled"));
    run1, s1 := Then(cfg, run1, s1, HandOver);
    run1, s1 := Then(cfg, run1, s1, Absorb);
    var first := [ContextDone, CallError("context canceled"), HandOver, Absorb];
    assert run1 == run + first;
    RunAppend(cfg, INIT, run, first);
    LostForGood(cfg, run1, s1);
    var _, t, rest := RunToStuck(cfg, run1, s1);
    more := first + rest;
    RunAppend(cfg, s, first, rest);
    RunAppend(cfg, INIT, run, more);
    LeakIsForever(cfg, s1, rest);
  }

  lemma LostForGood(cfg: Config, run: seq<Label>, s: State)
    requires Reached(cfg, run, s) && Leaked(s)
    ensures s.next <= |cfg.replies| && Only(IsCommit, s.log) == []
  {
    Invariant(cfg, run, s);
    assert CanRun(cfg, s, []);
    LeakedRelayNeverSettles(cfg, run, s, []);
  }

  /** For instance when a provider reports its usage and then an error: the usage is due, no chunk
      follows the error, nobody cancels, and the usage may never be committed. */
  lemma UsedButNotCharged(u: Usage, e: UpstreamError) returns (cfg: Config, run: seq<Label>, s: State, more: seq<Label>)
    requires u.total > 0
    ensures cfg == Config([ResponseChunk(None, Some(u), None), ResponseChunk(None, None, Some(e))], Eof, true, false)
    ensures ErrorOnlyLast(Stream(cfg)) && CommitDue(cfg, Stream(cfg)) == [Commit(u)]
    ensures Reached(cfg, run, s) && !s.ctxDone && s.writer.Stopped? && CanRun(cfg, s, more)
    ensures Stuck(cfg, After(cfg, s, more)) && Only(IsCommit, After(cfg, s, more).log) == []
  {
    var a, b := ResponseChunk(None, Some(u), None), ResponseChunk(None, None, Some(e));
    cfg := Config([a, b], Eof, true, false);
    assert cfg.replies[..2] == cfg.replies && cfg.replies[1].error.Some?;
    assert Stream(cfg) == cfg.replies == ([] + [a]) + [b];
    LastUsageSnoc(NO_USAGE, [] + [a], b);
    LastUsageSnoc(NO_USAGE, [], a);
    run, s, more := LostAfterError(cfg, 2);
  }
}
