/**
 * `ConnectionProvider`: fetches the user's connections once, keys them by
 * server id (or session id when there is none) and shares them, optionally
 * narrowed by a key filter, with a count of the live ones. The fetch
 * completes at once with an outcome given as a parameter.
 */
module ConnectionProvider {
  import opened Wrappers
  import opened Strings
  import opened JsObject
  import opened McpTypes

  /** `conn.serverId || conn.sessionId`. */
  function KeyOf(c: StoredConnection): (k: string)
    ensures TruthyOpt(c.serverId) ==> k == c.serverId.value
    ensures !TruthyOpt(c.serverId) ==> k == c.sessionId
  {
    if TruthyOpt(c.serverId) then c.serverId.value else c.sessionId
  }

  function KeepAll(c: StoredConnection): bool { true }

  function Same(c: StoredConnection): StoredConnection { c }

  function IsLive(c: StoredConnection): bool { c.connectionStatus == Connected }

  /** The `reduce` that builds the connection map: each connection assigned under its key, in list order. */
  method BuildConnectionsMap(list: seq<StoredConnection>) returns (acc: Entries<StoredConnection>)
    ensures acc == FromList(list, KeepAll, KeyOf, Same)
  {
    acc := [];
    var i := 0;
    while i < |list|
      invariant 0 <= i <= |list|
      invariant acc == FromList(list[..i], KeepAll, KeyOf, Same)
    {
      assert list[..i + 1][..i] == list[..i];
      acc := Put(acc, KeyOf(list[i]), list[i]);
      i := i + 1;
    }
    assert list[..|list|] == list;
  }

  /** Two connections under one key: the later one is kept, and each key appears once. */
  lemma {:induction false} LaterConnectionWins(list: seq<StoredConnection>, k: string)
    ensures DistinctKeys(FromList(list, KeepAll, KeyOf, Same))
    ensures var r := Get(FromList(list, KeepAll, KeyOf, Same), k);
            (r.None? <==> forall i :: 0 <= i < |list| ==> KeyOf(list[i]) != k) &&
            (r.Some? ==> exists i :: 0 <= i < |list| && list[i] == r.value && KeyOf(list[i]) == k &&
                                     forall j :: i < j < |list| ==> KeyOf(list[j]) != k)
  {
    FromListKeys(list, KeepAll, KeyOf, Same);
    FromListGet(list, KeepAll, KeyOf, Same, k);
  }

  /** What the provider hands out: the connections and how many of them are live. */
  datatype ContextView = ContextView(connections: Entries<StoredConnection>, activeCount: nat)

  /** Without a filter, everything; with one, the entries whose key passes, and the live count among them. */
  function View(all: Entries<StoredConnection>, filter: Option<string -> bool>): (v: ContextView)
    ensures v.activeCount <= |v.connections|
    ensures filter.None? ==> v.connections == all
    ensures v.activeCount == CountValues(v.connections, IsLive)
    ensures filter.Some? ==> v.connections == FilterKeys(all, filter.value)
  {
    if filter.None? then ContextView(all, CountValues(all, IsLive))
    else
      var shown := FilterKeys(all, filter.value);
      ContextView(shown, CountValues(shown, IsLive))
  }

  /** A filtered view holds a key exactly when the filter accepts it and the map has it, with the same connection. */
  lemma FilteredViewEntries(all: Entries<StoredConnection>, keep: string -> bool, k: string)
    ensures Get(View(all, Some(keep)).connections, k) == if keep(k) then Get(all, k) else None
  {
    FilterKeysGet(all, keep, k);
  }

  /** The result of `fetch('/api/mcp/connections')`: the list, or a failure (bad status, bad body, missing list). */
  datatype ConnectionsFetch = ConnectionsFetched(list: seq<StoredConnection>) | ConnectionsFailed

  class Provider {
    var hasValidated: bool
    var isValidating: bool
    var allConnections: Entries<StoredConnection>
    /** How many times the connections were requested. */
    var fetches: nat

    constructor ()
      ensures !hasValidated && isValidating && allConnections == [] && fetches == 0
    {
      hasValidated := false;
      isValidating := true;
      allConnections := [];
      fetches := 0;
    }

    /** `fetchConnections` (also `refresh`): a failure leaves the map as it was. */
    method FetchConnections(outcome: ConnectionsFetch)
      modifies this`allConnections, this`fetches
      ensures fetches == old(fetches) + 1
      ensures outcome.ConnectionsFailed? ==> allConnections == old(allConnections)
      ensures outcome.ConnectionsFetched? ==> allConnections == FromList(outcome.list, KeepAll, KeyOf, Same)
    {
      fetches := fetches + 1;
      if outcome.ConnectionsFetched? {
        allConnections := BuildConnectionsMap(outcome.list);
      }
    }

    /** The mount-time load: runs once; `isValidating` is false when it is done. */
    method Load(outcome: ConnectionsFetch)
      modifies this
      ensures hasValidated && fetches == (if old(hasValidated) then old(fetches) else old(fetches) + 1)
      ensures old(hasValidated) ==> allConnections == old(allConnections) && isValidating == old(isValidating)
      ensures !old(hasValidated) ==>
                !isValidating &&
                (outcome.ConnectionsFailed? ==> allConnections == old(allConnections)) &&
                (outcome.ConnectionsFetched? ==> allConnections == FromList(outcome.list, KeepAll, KeyOf, Same))
    {
      if hasValidated {
        return;
      }
      hasValidated := true;
      isValidating := true;
      FetchConnections(outcome);
      isValidating := false;
    }
  }

  /** However often the mount effect runs, the connections are fetched once. */
  method LoadTwiceFetchesOnce(p: Provider, first: ConnectionsFetch, second: ConnectionsFetch)
    requires !p.hasValidated
    modifies p
    ensures p.fetches == old(p.fetches) + 1 && !p.isValidating
  {
    p.Load(first);
    p.Load(second);
  }
}
