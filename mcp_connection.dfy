/**
 * `useMcpConnection`: read helpers over the shared connection map (keyed by
 * session id), the merge of a server list with it, and the `connect` and
 * `disconnect` actions. The store's connect and disconnect actions are
 * oracles: the calls they receive are logged and their outcome is a
 * parameter, as are the toasts shown.
 */
module McpConnection {
  import opened Wrappers
  import opened Strings
  import opened JsObject
  import opened McpTypes

  /** A server the user can connect to, as the catalogue or the registry describes it. */
  datatype ConnectableServer = ConnectableServer(
    id: string,
    name: string,
    url: Option<string>,
    remoteUrl: Option<string>,
    transport: Option<string>,
    transportType: Option<string>,
    title: Option<string>)

  /** `server.remoteUrl || server.url || null`. */
  function ExtractServerUrl(s: ConnectableServer): (r: Option<string>)
    ensures r.Some? <==> TruthyOpt(s.remoteUrl) || TruthyOpt(s.url)
    ensures TruthyOpt(s.remoteUrl) ==> r == s.remoteUrl
    ensures !TruthyOpt(s.remoteUrl) && TruthyOpt(s.url) ==> r == s.url
  {
    if TruthyOpt(s.remoteUrl) then s.remoteUrl else if TruthyOpt(s.url) then s.url else None
  }

  /** `server.transportType || server.transport || null`. */
  function ExtractTransport(s: ConnectableServer): (r: Option<string>)
    ensures r.Some? <==> TruthyOpt(s.transportType) || TruthyOpt(s.transport)
    ensures TruthyOpt(s.transportType) ==> r == s.transportType
    ensures !TruthyOpt(s.transportType) && TruthyOpt(s.transport) ==> r == s.transport
  {
    if TruthyOpt(s.transportType) then s.transportType else if TruthyOpt(s.transport) then s.transport else None
  }

  /** `getConnectionStatus(id)`: CONNECTED only for a stored entry that says so. */
  function GetConnectionStatus(connections: Entries<StoredConnection>, id: string): (status: string)
    ensures status == Connected || status == Disconnected
    ensures status == Connected <==> Get(connections, id).Some? && Get(connections, id).value.connectionStatus == Connected
  {
    var c := Get(connections, id);
    if c.Some? && c.value.connectionStatus == Connected then Connected else Disconnected
  }

  /** `isServerConnected(id)`. */
  predicate IsServerConnected(connections: Entries<StoredConnection>, id: string) {
    var c := Get(connections, id);
    c.Some? && c.value.connectionStatus == Connected
  }

  /** The two helpers agree, and a missing entry is disconnected. */
  lemma StatusHelpersAgree(connections: Entries<StoredConnection>, id: string)
    ensures IsServerConnected(connections, id) <==> GetConnectionStatus(connections, id) == Connected
    ensures id !in Keys(connections) ==> GetConnectionStatus(connections, id) == Disconnected
  {
  }

  /** `getServerTools(id)`: the stored tools, or none. */
  function GetServerTools(connections: Entries<StoredConnection>, id: string): (tools: seq<ToolInfo>)
    ensures Get(connections, id).Some? && Get(connections, id).value.tools.Some? ==> tools == Get(connections, id).value.tools.value
    ensures Get(connections, id).None? || Get(connections, id).value.tools.None? ==> tools == []
  {
    var c := Get(connections, id);
    if c.Some? && c.value.tools.Some? then c.value.tools.value else []
  }

  function IsLive(c: StoredConnection): bool { c.connectionStatus == Connected }

  /** `activeConnections`: the entries whose status is CONNECTED. */
  function ActiveConnections(connections: Entries<StoredConnection>): (active: Entries<StoredConnection>)
    ensures |active| <= |connections|
  {
    FilterValues(connections, IsLive)
  }

  /** `activeConnectionCount`: the number of keys of `activeConnections`. */
  function ActiveConnectionCount(connections: Entries<StoredConnection>): (n: nat)
    ensures n == |ActiveConnections(connections)| && n <= |connections|
  {
    |ActiveConnections(connections)|
  }

  /** The active connections are exactly the connected entries, under the same keys. */
  lemma {:induction false} ActiveConnectionsExact(connections: Entries<StoredConnection>, id: string)
    requires DistinctKeys(connections)
    ensures Get(ActiveConnections(connections), id) == (if IsServerConnected(connections, id) then Get(connections, id) else None)
  {
    FilterValuesGet(connections, IsLive, id);
  }

  /**
   * `mergeWithStoredState`: a server with a stored connection (found by
   * server id) takes its status and tools (or none); any other keeps its
   * tools and its status, or gets DISCONNECTED.
   */
  function MergeWithStoredState(servers: seq<McpServer>, connections: Entries<StoredConnection>): (r: seq<McpServer>)
    ensures |r| == |servers|
    ensures forall i :: 0 <= i < |servers| ==> r[i].id == servers[i].id && r[i].name == servers[i].name
    ensures forall i :: 0 <= i < |servers| ==> r[i].connectionStatus.Some?
  {
    seq(|servers|, i requires 0 <= i < |servers| => MergeOne(servers[i], Values(connections)))
  }

  function MergeOne(server: McpServer, conns: seq<StoredConnection>): (m: McpServer)
    ensures m.id == server.id && m.name == server.name && m.connectionStatus.Some?
  {
    var stored := FirstByServerId(conns, server.id);
    if stored.Some? then server.(connectionStatus := Some(stored.value.connectionStatus), tools := Some(stored.value.tools.GetOr([])))
    else server.(connectionStatus := Some(if TruthyOpt(server.connectionStatus) then server.connectionStatus.value else Disconnected))
  }

  /** With a stored connection the merge copies its status and tools; without one, the server's tools are untouched. */
  lemma MergeTakesStoredState(servers: seq<McpServer>, connections: Entries<StoredConnection>, i: nat)
    requires i < |servers|
    ensures var m := MergeWithStoredState(servers, connections)[i];
            var stored := FirstByServerId(Values(connections), servers[i].id);
            (stored.Some? ==> m.connectionStatus == Some(stored.value.connectionStatus) &&
                              m.tools == Some(stored.value.tools.GetOr([]))) &&
            (stored.None? ==> m.tools == servers[i].tools &&
                              (TruthyOpt(servers[i].connectionStatus) ==> m.connectionStatus == servers[i].connectionStatus) &&
                              (!TruthyOpt(servers[i].connectionStatus) ==> m.connectionStatus == Some(Disconnected)))
  {
  }

  const NoUrlMessage := "No URL available for this server"
  const NotInitializedMessage := "MCP Actions not initialized"
  const ConnectFailedMessage := "Failed to connect"
  const DisconnectFailedMessage := "Failed to disconnect"
  const NoConnectionMessage := "Connection information not found"
  const CallbackPath := "/api/mcp/auth/callback"

  /** The arguments of one call to the store's `connect` action. */
  datatype ConnectCall = ConnectCall(serverId: string, serverName: string, serverUrl: string,
                                     transportType: Option<string>, callbackUrl: string)

  /** How a store action ended: normally, or by throwing an `Error` (with its message) or another value. */
  datatype ActionOutcome = Done | ThrewError(message: string) | ThrewOther

  class ConnectionHook {
    var isConnecting: bool
    var connectionError: Option<string>
    var connectCalls: seq<ConnectCall>
    var disconnectCalls: seq<string>
    var toasts: seq<string>

    constructor ()
      ensures !isConnecting && connectionError == None && connectCalls == [] && disconnectCalls == [] && toasts == []
    {
      isConnecting := false;
      connectionError := None;
      connectCalls := [];
      disconnectCalls := [];
      toasts := [];
    }

    /**
     * `connect(server)`: without a URL only a toast; otherwise the store's
     * action is called (when it is initialised) with the callback under the
     * page's origin, and a failure is recorded and shown. `isConnecting` is
     * false afterwards.
     */
    method Connect(server: ConnectableServer, origin: string, actionsReady: bool, outcome: ActionOutcome)
      modifies this
      ensures disconnectCalls == old(disconnectCalls)
      ensures ExtractServerUrl(server).Some? ==> !isConnecting
      ensures ExtractServerUrl(server).None? ==>
                isConnecting == old(isConnecting) && connectCalls == old(connectCalls) && toasts == old(toasts) + [NoUrlMessage] &&
                connectionError == old(connectionError)
      ensures ExtractServerUrl(server).Some? && !actionsReady ==>
                connectCalls == old(connectCalls) && connectionError == Some(NotInitializedMessage) &&
                toasts == old(toasts) + [NotInitializedMessage]
      ensures ExtractServerUrl(server).Some? && actionsReady ==>
                connectCalls == old(connectCalls) + [ConnectCall(server.id, if TruthyOpt(server.title) then server.title.value else server.name,
                                                                 ExtractServerUrl(server).value, ExtractTransport(server),
                                                                 origin + CallbackPath)] &&
                (outcome.Done? ==> connectionError == None && toasts == old(toasts)) &&
                (!outcome.Done? ==> var m := if outcome.ThrewError? then outcome.message else ConnectFailedMessage;
                                    connectionError == Some(m) && toasts == old(toasts) + [m])
    {
      var serverUrl := ExtractServerUrl(server);
      if serverUrl.None? {
        toasts := toasts + [NoUrlMessage];
        return;
      }
      var transport := ExtractTransport(server);
      isConnecting := true;
      connectionError := None;
      var failure: Option<string> := None;
      if !actionsReady {
        failure := Some(NotInitializedMessage);
      } else {
        connectCalls := connectCalls + [ConnectCall(server.id, if TruthyOpt(server.title) then server.title.value else server.name,
                                                    serverUrl.value, transport, origin + CallbackPath)];
        if !outcome.Done? {
          failure := Some(if outcome.ThrewError? then outcome.message else ConnectFailedMessage);
        }
      }
      if failure.Some? {
        connectionError := failure;
        toasts := toasts + [failure.value];
      }
      isConnecting := false;
    }

    /**
     * `disconnect(server)`: the session comes from the store's lookup by
     * server id, else from the map under the server's id; with neither only a
     * toast. A failure is shown, never recorded.
     */
    method Disconnect(server: ConnectableServer, connections: Entries<StoredConnection>,
                      byServerId: Option<StoredConnection>, actionsReady: bool, outcome: ActionOutcome)
      modifies this`disconnectCalls, this`toasts
      ensures var session := if byServerId.Some? && Truthy(byServerId.value.sessionId) then Some(byServerId.value.sessionId)
                             else if Get(connections, server.id).Some? then Some(Get(connections, server.id).value.sessionId)
                             else None;
              (session.None? ==> disconnectCalls == old(disconnectCalls) && toasts == old(toasts) + [NoConnectionMessage]) &&
              (session.Some? && !actionsReady ==> disconnectCalls == old(disconnectCalls) &&
                                                  toasts == old(toasts) + [NotInitializedMessage]) &&
              (session.Some? && actionsReady ==>
                 disconnectCalls == old(disconnectCalls) + [session.value] &&
                 toasts == old(toasts) + (if outcome.Done? then []
                                          else [if outcome.ThrewError? then outcome.message else DisconnectFailedMessage]))
    {
      var session: string;
      if byServerId.Some? && Truthy(byServerId.value.sessionId) {
        session := byServerId.value.sessionId;
      } else {
        var direct := Get(connections, server.id);
        if direct.None? {
          toasts := toasts + [NoConnectionMessage];
          return;
        }
        session := direct.value.sessionId;
      }
      if !actionsReady {
        toasts := toasts + [NotInitializedMessage];
        return;
      }
      disconnectCalls := disconnectCalls + [session];
      if !outcome.Done? {
        toasts := toasts + [if outcome.ThrewError? then outcome.message else DisconnectFailedMessage];
      }
    }
  }
}
