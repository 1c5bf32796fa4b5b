/** The plugin client as the object it is (internal/plugins/rpc.go): `call` and `reconnect` with their
    critical sections, run while other callers interfere between them. */
module PluginClient {
  import opened Capabilities
  import opened Reconnect

  /** What one RPC came back with. */
  datatype Reply = Answered | Shutdown | OtherError

  datatype CallResult = Returned(reply: Reply) | ReconnectFailed

  class RPCPluginClient {
    var client: Client
    /** How many connections have been dialled: the number the next one gets. */
    var dials: nat
    ghost var history: Shared

    ghost predicate Valid()
      reads this
    {
      Sound(history) && history.current == client && history.dialled == dials
    }

    /** `DialRPCPlugin`, once the dial has succeeded. */
    constructor ()
      ensures Valid() && history == START
    {
      client, dials, history := 0, 1, START;
    }

    /** Other callers run between two critical sections; `mine` are the clients this caller has
        dialled and told nobody about.  `RelyAlong` shows that every run of theirs fits this contract. */
    method Interfere(ghost mine: set<Client>)
      requires Valid() && forall c :: c in mine ==> c !in history.installed && c !in history.closes
      modifies this
      ensures Valid() && Rely(mine, old(history), history)
    {
    }

    method Dial() returns (spare: Client)
      requires Valid()
      modifies this
      ensures Valid() && spare == old(history).dialled && history == Dialled(old(history))
    {
      spare, dials, history := dials, dials + 1, Dialled(history);
    }

    /** `reconnect`: the result is a strictly newer client than `stale`, whatever the other callers do
        meanwhile, and a client dialled here has been installed or closed; it fails only if the dial does. */
    method Reconnect(stale: Client, dialSucceeds: bool) returns (current: Option<Client>, ghost spare: Option<Client>)
      requires Valid() && StaleOk(history, stale)
      modifies this
      ensures Valid() && Rely({}, old(history), history)
      ensures current.Some? ==> stale < current.value && current.value in history.installed
      ensures current.None? ==> !dialSucceeds && spare.None?
      ensures old(client) != stale ==> current == Some(old(client)) && history == old(history)
      ensures spare.Some? ==> old(history.dialled) <= spare.value
      ensures spare.Some? ==>
                || (current == spare && stale in history.closes)
                || (current != spare && spare.value in history.closes)
    {
      spare := None;
      IncreasingLast(history.installed, stale);
      if client != stale {
        return Some(client), spare;
      }
      Interfere({});
      if !dialSucceeds {
        return None, spare;
      }
      var c := Dial();
      spare := Some(c);
      assert forall x :: x in history.installed ==> x < c by {
        forall x | x in history.installed ensures x < c { IncreasingLast(history.installed, x); }
      }
      Interfere({c});
      var winner := Decide(stale, c);
      current := Some(winner);
    }

    /** The second half of `reconnect`: install the new client unless another caller was faster, in
        which case close it, after the lock has been released. */
    method Decide(stale: Client, c: Client) returns (winner: Client)
      requires Valid() && StaleOk(history, stale) && PrivateTo(history, stale, c)
      modifies this
      ensures Valid() && Rely({}, old(history), history)
      ensures stale < winner && winner in history.installed
      ensures old(client) == stale ==> winner == c && stale in history.closes
      ensures old(client) != stale ==> winner == old(client) && winner != c && c in history.closes
    {
      IncreasingLast(history.installed, stale);
      if client == stale {
        InstallSound(history, c);
        client, history := c, Installed(history, c);
        assert history.installed[|history.installed| - 1] == c;
        assert history.closes[|history.closes| - 1] == stale;
        return c;
      }
      winner := client;
      assert client in history.installed;
      Interfere({c});
      history := Closed(history, c);
      assert history.closes[|history.closes| - 1] == c;
    }

    /** `call`: one attempt, and after `ErrShutdown` at most one more, on a strictly newer client. */
    method Call(first: Reply, dialSucceeds: bool, second: Reply) returns (result: CallResult, tries: seq<Client>)
      requires Valid()
      modifies this
      ensures Valid() && Rely({}, old(history), history)
      ensures !first.Shutdown? ==> result == Returned(first) && |tries| == 1
      ensures first.Shutdown? && result.ReconnectFailed? ==> !dialSucceeds && |tries| == 1
      ensures first.Shutdown? && result.Returned? ==> result.reply == second && |tries| == 2 && tries[0] < tries[1]
      ensures first.Shutdown? ==> tries != [] && tries[0] in history.broken
      ensures forall c :: c in tries ==> c in history.installed
    {
      var c := client;
      tries := [c];
      assert c in history.installed;
      Interfere({});
      if !first.Shutdown? {
        return Returned(first), tries;
      }
      history := history.(broken := history.broken + {c});
      assert Sound(history);
      Interfere({});
      var newer, _ := Reconnect(c, dialSucceeds);
      if newer.None? {
        return ReconnectFailed, tries;
      }
      tries := tries + [newer.value];
      Interfere({});
      result := Returned(second);
    }
  }
}
