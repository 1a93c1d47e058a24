/**
 * The selector hooks over the shared MCP store: `usePublicServers`,
 * `useUserServers` and `useFilteredServers` decorate each catalogue server
 * with the first connection recorded for it, and `useFilteredServers` then
 * filters by search text and category. `useRegistryServers` exposes the
 * registry paging flags.
 */
module StoreHooks {
  import opened Wrappers
  import opened Strings
  import opened JsObject
  import opened McpTypes

  /** One server with its connection state: status, session and tools come from the first matching connection. */
  function MergeServer(server: McpServer, conns: seq<StoredConnection>): (m: McpServer)
    ensures m.id == server.id && m.name == server.name && m.description == server.description &&
            m.categories == server.categories
    ensures var c := FirstByServerId(conns, server.id);
            m.connectionStatus == Some(if c.Some? && Truthy(c.value.connectionStatus) then c.value.connectionStatus else Disconnected) &&
            m.sessionId == (if c.Some? then Some(c.value.sessionId) else None)
    ensures var c := FirstByServerId(conns, server.id);
            m.tools.Some? &&
            (c.Some? && c.value.tools.Some? ==> m.tools == c.value.tools) &&
            ((c.None? || c.value.tools.None?) && server.tools.Some? ==> m.tools == server.tools) &&
            ((c.None? || c.value.tools.None?) && server.tools.None? ==> m.tools == Some([]))
  {
    var c := FirstByServerId(conns, server.id);
    server.(connectionStatus := Some(if c.Some? && Truthy(c.value.connectionStatus) then c.value.connectionStatus else Disconnected),
            sessionId := if c.Some? then Some(c.value.sessionId) else None,
            tools := Some(if c.Some? && c.value.tools.Some? then c.value.tools.value
                          else if server.tools.Some? then server.tools.value else []))
  }

  /** `baseServers.map(...)` with the merge: one entry per server, in the same order. */
  function MergeAll(servers: seq<McpServer>, connections: Entries<StoredConnection>): (r: seq<McpServer>)
    ensures |r| == |servers|
    ensures forall i :: 0 <= i < |servers| ==> r[i] == MergeServer(servers[i], Values(connections))
  {
    seq(|servers|, i requires 0 <= i < |servers| => MergeServer(servers[i], Values(connections)))
  }

  /**
   * Tools fall back from the connection's to the server's to none; an empty
   * tool list on the connection is kept (an empty array is truthy), and only
   * the first connection for the server is consulted, so a later one's tools
   * never replace the server's.
   */
  lemma {:induction false} ToolsFallback(server: McpServer, a: StoredConnection, rest: seq<StoredConnection>)
    requires a.serverId == Some(server.id)
    ensures var m := MergeServer(server, [a] + rest);
            (a.tools.Some? ==> m.tools == a.tools) &&
            (a.tools == Some([]) ==> m.tools == Some([])) &&
            (a.tools.None? && server.tools.Some? ==> m.tools == server.tools) &&
            (a.tools.None? && server.tools.None? ==> m.tools == Some([]))
  {
    assert ([a] + rest)[0] == a;
  }

  /** Two connections for one server: the earlier one decides the status. */
  lemma {:induction false} FirstConnectionDecides(server: McpServer, a: StoredConnection, b: StoredConnection,
                                                  rest: seq<StoredConnection>)
    requires a.serverId == Some(server.id) && b.serverId == Some(server.id) && Truthy(a.connectionStatus)
    ensures MergeServer(server, [a] + rest + [b]).connectionStatus == Some(a.connectionStatus)
  {
    assert ([a] + rest + [b])[0] == a;
  }

  /** `s.name.toLowerCase().includes(q) || s.description?.toLowerCase().includes(q)`. */
  predicate MatchesQuery(s: McpServer, query: string) {
    Includes(Lower(s.name), Lower(query)) ||
    (s.description.Some? && Includes(Lower(s.description.value), Lower(query)))
  }

  /** `s.categories?.some(c => c.slug === slug)`. */
  predicate InCategory(s: McpServer, slug: string) {
    s.categories.Some? && exists i :: 0 <= i < |s.categories.value| && s.categories.value[i].slug == slug
  }

  /** `useFilteredServers`: the active tab's list, merged, then filtered by a non-empty query and a selected category. */
  function FilteredServers(activeTab: string, publicServers: seq<McpServer>, userServers: seq<McpServer>,
                           connections: Entries<StoredConnection>, searchQuery: string,
                           selectedCategory: Option<string>): (r: seq<McpServer>)
    ensures var base := if activeTab == "public" then publicServers else userServers;
            |r| <= |base| &&
            forall s :: s in r <==>
              s in MergeAll(base, connections) &&
              (Truthy(searchQuery) ==> MatchesQuery(s, searchQuery)) &&
              (TruthyOpt(selectedCategory) ==> InCategory(s, selectedCategory.value))
  {
    var base := if activeTab == "public" then publicServers else userServers;
    var merged := MergeAll(base, connections);
    var searched := if Truthy(searchQuery) then Filter(merged, s => MatchesQuery(s, searchQuery)) else merged;
    if TruthyOpt(selectedCategory) then Filter(searched, s => InCategory(s, selectedCategory.value)) else searched
  }

  /** Without a query or category, the filtered list is the merged list of the active tab. */
  lemma NoFilterKeepsAll(activeTab: string, publicServers: seq<McpServer>, userServers: seq<McpServer>,
                         connections: Entries<StoredConnection>)
    ensures FilteredServers(activeTab, publicServers, userServers, connections, "", None) ==
            MergeAll(if activeTab == "public" then publicServers else userServers, connections)
  {
  }

  /** A server named after the query is always found, whatever its case. */
  lemma {:induction false} NameMatchFound(s: McpServer, query: string)
    requires Lower(s.name) == Lower(query)
    ensures MatchesQuery(s, query)
  {
    assert OccursAt(Lower(s.name), Lower(query), 0);
  }

  /** The mount-time fetch of `usePublicServers` and `useRegistryServers`: exactly for an empty list that is not loading. */
  function MountFetches(listed: nat, loading: bool): (fetch: bool)
    ensures fetch ==> listed == 0
    ensures loading ==> !fetch
    ensures listed == 0 && !loading ==> fetch
  {
    listed == 0 && !loading
  }

  /** The registry flags of the store: a next page for a non-empty cursor, a previous one for a non-empty history. */
  datatype RegistryFlags = RegistryFlags(hasNextPage: bool, hasPreviousPage: bool)

  function StoreRegistryFlags(nextCursor: Option<string>, cursorHistory: seq<string>): (f: RegistryFlags)
    ensures f.hasNextPage <==> nextCursor.Some? && nextCursor.value != ""
    ensures f.hasPreviousPage <==> |cursorHistory| > 0
  {
    RegistryFlags(TruthyOpt(nextCursor), |cursorHistory| > 0)
  }
}
