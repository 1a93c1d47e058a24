/**
 * `useMcpTools`: the connected servers the chat may use, with their tools and
 * the transport and url the catalogue gives for them. The connection store
 * (keyed by server name), its validation and the catalogue query are
 * oracles whose results come in as parameters.
 */
module McpTools {
  import opened Wrappers
  import opened JsObject
  import opened McpTypes

  /** One usable server, as the hook hands it to the chat. */
  datatype ServerWithTools = ServerWithTools(
    serverName: string,
    sessionId: string,
    connectionStatus: string,
    tools: seq<ToolInfo>,
    connectedAt: string,
    transport: Option<string>,
    url: Option<string>,
    headers: Option<map<string, string>>)

  /** One catalogue node of the metadata query. */
  datatype Metadata = Metadata(name: string, transport: Option<string>, url: Option<string>)

  function AnyMetadata(m: Metadata): bool { true }
  function MetadataName(m: Metadata): string { m.name }
  function SameMetadata(m: Metadata): Metadata { m }

  /** `new Map(nodes.map(s => [s.name, s])).get(name)`: the last node with that name. */
  function MetadataFor(nodes: seq<Metadata>, name: string): (m: Option<Metadata>)
    ensures m.Some? ==> exists i :: 0 <= i < |nodes| && nodes[i] == m.value && m.value.name == name &&
                                    forall j :: i < j < |nodes| ==> nodes[j].name != name
    ensures m.None? <==> forall i :: 0 <= i < |nodes| ==> nodes[i].name != name
  {
    LastWith(nodes, AnyMetadata, MetadataName, SameMetadata, name)
  }

  /** A stored entry the chat may use: connected and among the names that passed validation. */
  predicate Usable(e: (string, StoredConnection), validNames: seq<string>) {
    e.1.connectionStatus == Connected && e.0 in validNames
  }

  /** `Object.entries(connections).filter(...)`: the usable entries, in store order. */
  function UsableEntries(validNames: seq<string>, connections: Entries<StoredConnection>): (u: seq<(string, StoredConnection)>)
    ensures forall e :: e in u <==> e in connections && Usable(e, validNames)
  {
    Filter(connections, e => Usable(e, validNames))
  }

  function ToServer(e: (string, StoredConnection), meta: Option<Metadata>): (s: ServerWithTools)
    ensures s.serverName == e.0 && s.sessionId == e.1.sessionId && s.connectionStatus == e.1.connectionStatus
    ensures s.tools == e.1.tools.GetOr([]) && s.headers == None
    ensures s.transport == (if meta.Some? then meta.value.transport else None)
    ensures s.url == (if meta.Some? then meta.value.url else None)
  {
    ServerWithTools(e.0, e.1.sessionId, e.1.connectionStatus, e.1.tools.GetOr([]), e.1.connectedAt,
                    if meta.Some? then meta.value.transport else None,
                    if meta.Some? then meta.value.url else None,
                    None)
  }

  /** The usable entries in store order, each joined with its catalogue node. */
  function ServersFor(validNames: seq<string>, connections: Entries<StoredConnection>, nodes: seq<Metadata>): (r: seq<ServerWithTools>)
    ensures validNames == [] ==> r == []
    ensures forall i :: 0 <= i < |r| ==> r[i].connectionStatus == Connected && r[i].serverName in validNames && r[i].headers == None
    ensures var usable := UsableEntries(validNames, connections);
            |r| == |usable| &&
            forall i :: 0 <= i < |r| ==> r[i] == ToServer(usable[i], MetadataFor(nodes, usable[i].0))
  {
    var usable := UsableEntries(validNames, connections);
    assert forall i :: 0 <= i < |usable| ==> Usable(usable[i], validNames) by {
      forall i | 0 <= i < |usable| ensures Usable(usable[i], validNames) {
        assert usable[i] in usable;
      }
    }
    assert |usable| > 0 ==> validNames != [] by {
      if |usable| > 0 {
        assert usable[0].0 in validNames;
      }
    }
    seq(|usable|, i requires 0 <= i < |usable| => ToServer(usable[i], MetadataFor(nodes, usable[i].0)))
  }

  /** Every connected, validated entry of the store is offered, with its session and the metadata of its name. */
  lemma {:induction false} UsableEntriesOffered(validNames: seq<string>, connections: Entries<StoredConnection>,
                                                nodes: seq<Metadata>, name: string, c: StoredConnection)
    requires (name, c) in connections && c.connectionStatus == Connected && name in validNames
    ensures exists i :: 0 <= i < |ServersFor(validNames, connections, nodes)| &&
                        ServersFor(validNames, connections, nodes)[i] == ToServer((name, c), MetadataFor(nodes, name))
  {
    var usable := UsableEntries(validNames, connections);
    assert (name, c) in usable;
    var i :| 0 <= i < |usable| && usable[i] == (name, c);
    assert ServersFor(validNames, connections, nodes)[i] == ToServer((name, c), MetadataFor(nodes, name));
  }

  /** The servers come out in store order: two parts of the store give their servers one after the other. */
  lemma ServersForAppend(validNames: seq<string>, a: Entries<StoredConnection>, b: Entries<StoredConnection>,
                         nodes: seq<Metadata>)
    ensures ServersFor(validNames, a + b, nodes) == ServersFor(validNames, a, nodes) + ServersFor(validNames, b, nodes)
  {
    FilterAppend(a, b, e => Usable(e, validNames));
    assert UsableEntries(validNames, a + b) == UsableEntries(validNames, a) + UsableEntries(validNames, b);
  }

  /** The catalogue query as seen by the hook: its nodes, none when the data is missing, or a failure. */
  datatype MetadataQuery = Nodes(nodes: Option<seq<Metadata>>) | QueryFailed

  class ToolsHook {
    var mcpServers: seq<ServerWithTools>
    var loading: bool

    constructor ()
      ensures mcpServers == [] && loading
    {
      mcpServers := [];
      loading := true;
    }

    /**
     * `loadMcpServers`: outside a browser nothing but `loading`; a failed
     * validation or query empties the list; no valid names, or no usable
     * entry, gives the empty list without a query; otherwise the usable
     * entries joined with the catalogue.
     */
    method LoadMcpServers(inBrowser: bool, validNames: Result<seq<string>, string>,
                          connections: Entries<StoredConnection>, query: MetadataQuery)
      modifies this
      ensures !loading
      ensures !inBrowser ==> mcpServers == old(mcpServers)
      ensures inBrowser && validNames.Err? ==> mcpServers == []
      ensures inBrowser && validNames.Ok? && query.Nodes? ==>
                mcpServers == ServersFor(validNames.value, connections, query.nodes.GetOr([]))
      ensures inBrowser && validNames.Ok? && query.QueryFailed? ==> mcpServers == []
    {
      if !inBrowser {
        loading := false;
        return;
      }
      if validNames.Err? {
        mcpServers := [];
        loading := false;
        return;
      }
      var names := validNames.value;
      if |names| == 0 {
        mcpServers := [];
        loading := false;
        return;
      }
      var usable := UsableEntries(names, connections);
      if |usable| == 0 {
        mcpServers := [];
        loading := false;
        return;
      }
      if query.QueryFailed? {
        mcpServers := [];
        loading := false;
        return;
      }
      var nodes := query.nodes.GetOr([]);
      mcpServers := seq(|usable|, i requires 0 <= i < |usable| => ToServer(usable[i], MetadataFor(nodes, usable[i].0)));
      loading := false;
    }
  }
}
