/**
 * `POST /api/mcp/server-config`: turns the browser's `mcpConfig` (transport,
 * url and session id per server) into a `serverConfig` the agent can use, with
 * a Bearer `Authorization` header for every server whose live client has an
 * access token. Clients are looked up in the session store; what a client's
 * OAuth provider returns from `tokens()` is an oracle.
 */
module ServerConfig {
  import opened Wrappers
  import opened Strings
  import opened Kv
  import SessionStore

  /**
   * One server of the request's `mcpConfig`. A `null` (or missing) value
   * cannot be destructured; a number, string or boolean destructures to three
   * `undefined` fields, which is `ConfigEntry(None, None, None)`.
   */
  datatype ConfigEntry =
    | ConfigEntry(transport: Option<string>, url: Option<string>, sessionId: Option<string>)
    | NullEntry

  /** The request body as far as the route looks at it. */
  datatype RequestBody =
    | NotJson(message: string)                         // request.json() threw
    | NoConfig                                         // mcpConfig missing or falsy (null, "", 0, false)
    | NonObjectConfig                                  // mcpConfig a string, number or boolean
    | ConfigObject(servers: map<string, ConfigEntry>)

  /** One server of the response's `serverConfig`. */
  datatype ServerEntry = ServerEntry(transport: Option<string>, url: Option<string>, headers: Option<map<string, string>>)

  /** What reading `client.oauthProvider.tokens()` yields. */
  datatype TokenRead =
    | NoProvider                            // the client has no oauthProvider
    | NoTokens                              // tokens() gave a falsy value
    | TokensRead(accessToken: Option<string>)
    | Pending                               // tokens() gave a Promise: it is not awaited, so it has no access_token
    | ReadThrew

  datatype Response =
    | BadRequest(error: string)        // 400
    | InternalError(error: string)     // 500
    | Config(serverConfig: map<string, ServerEntry>)

  const InvalidConfigMessage := "Invalid mcpConfig provided"

  /** The `Authorization` header built from a token read, when it has a non-empty access token. */
  function HeadersFrom(read: TokenRead): (h: Option<map<string, string>>)
    ensures h.Some? <==> read.TokensRead? && TruthyOpt(read.accessToken)
    ensures h.Some? ==> h.value == map["Authorization" := "Bearer " + read.accessToken.value]
  {
    if read.TokensRead? && TruthyOpt(read.accessToken)
    then Some(map["Authorization" := "Bearer " + read.accessToken.value])
    else None
  }

  /** What `sessionStore.getClient(sessionId)` answers for a store in the given state. */
  function LiveClient(clients: map<string, SessionStore.Client>, entries: map<string, Entry>, useRedis: bool,
                      sessionId: string): (c: Option<SessionStore.Client>)
    ensures c.Some? <==> sessionId in clients && (!useRedis || SessionStore.StoreKey(sessionId) in entries)
    ensures c.Some? ==> c.value == clients[sessionId]
  {
    if sessionId in clients && (!useRedis || SessionStore.StoreKey(sessionId) in entries) then Some(clients[sessionId]) else None
  }

  /**
   * The response entry for one server: transport and url as given; headers
   * only for a session whose client is live and whose provider gives a
   * non-empty access token.
   */
  function EntryFor(cfg: ConfigEntry, client: Option<SessionStore.Client>,
                    tokenReads: map<SessionStore.Client, TokenRead>): (e: ServerEntry)
    requires cfg.ConfigEntry?
    ensures e.transport == cfg.transport && e.url == cfg.url
    ensures !TruthyOpt(cfg.sessionId) || client.None? ==> e.headers.None?
    ensures e.headers.Some? ==> client.value in tokenReads && e.headers == HeadersFrom(tokenReads[client.value])
    ensures e.headers.Some? ==> exists token :: token != "" && e.headers.value == map["Authorization" := "Bearer " + token]
  {
    if !TruthyOpt(cfg.sessionId) || client.None? then ServerEntry(cfg.transport, cfg.url, None)
    else
      var read := if client.value in tokenReads then tokenReads[client.value] else NoProvider;
      var h := HeadersFrom(read);
      if h.Some? then
        assert h.value == map["Authorization" := "Bearer " + read.accessToken.value];
        ServerEntry(cfg.transport, cfg.url, h)
      else ServerEntry(cfg.transport, cfg.url, None)
  }

  /**
   * `POST`: 400 for a missing or non-object `mcpConfig`, 500 for a body that is
   * not JSON or for a `null` server entry (destructuring it throws a TypeError,
   * whose text `nullEntryError` is the engine's, outside the per-server `try`),
   * otherwise one entry per server. Looking a client up may drop it
   * from the store (its Redis key is gone) or refresh its TTL, but no lookup
   * changes what a later lookup answers, so every entry is decided by the
   * store as it was when the request came in.
   */
  method Post(body: RequestBody, store: SessionStore.SessionStore, tokenReads: map<SessionStore.Client, TokenRead>,
              nullEntryError: string)
    returns (r: Response)
    modifies store, store.kv
    ensures body.NotJson? ==> r == InternalError(body.message)
    ensures body.NoConfig? || body.NonObjectConfig? ==> r == BadRequest(InvalidConfigMessage)
    ensures body.ConfigObject? && (exists name :: name in body.servers && body.servers[name].NullEntry?)
            ==> r == InternalError(nullEntryError)
    ensures body.ConfigObject? && (forall name :: name in body.servers ==> body.servers[name].ConfigEntry?)
            ==> r.Config? && r.serverConfig.Keys == body.servers.Keys
    ensures r.Config? ==> body.ConfigObject? && r.serverConfig.Keys == body.servers.Keys
    ensures r.Config? ==> forall name :: name in body.servers ==>
              body.servers[name].ConfigEntry? &&
              r.serverConfig[name] ==
                EntryFor(body.servers[name],
                         if TruthyOpt(body.servers[name].sessionId)
                         then LiveClient(old(store.clients), old(store.kv.entries), store.useRedis, body.servers[name].sessionId.value)
                         else None,
                         tokenReads)
  {
    if body.NotJson? {
      return InternalError(body.message);
    }
    if !body.ConfigObject? {
      return BadRequest(InvalidConfigMessage);
    }
    var servers := body.servers;
    var out: map<string, ServerEntry> := map[];
    var rest := servers.Keys;
    while rest != {}
      invariant rest <= servers.Keys
      invariant out.Keys == servers.Keys - rest
      invariant forall name :: name in out ==> servers[name].ConfigEntry?
      invariant forall sid :: LiveClient(store.clients, store.kv.entries, store.useRedis, sid)
                              == LiveClient(old(store.clients), old(store.kv.entries), store.useRedis, sid)
      invariant forall name :: name in out ==>
                  out[name] ==
                    EntryFor(servers[name],
                             if TruthyOpt(servers[name].sessionId)
                             then LiveClient(old(store.clients), old(store.kv.entries), store.useRedis, servers[name].sessionId.value)
                             else None,
                             tokenReads)
      decreases rest
    {
      var name :| name in rest;
      var cfg := servers[name];
      if cfg.NullEntry? {
        return InternalError(nullEntryError);
      }
      if !TruthyOpt(cfg.sessionId) {
        out := out[name := ServerEntry(cfg.transport, cfg.url, None)];
      } else {
        var client := LookUp(store, cfg.sessionId.value);
        if client.None? {
          out := out[name := ServerEntry(cfg.transport, cfg.url, None)];
        } else {
          var read := if client.value in tokenReads then tokenReads[client.value] else NoProvider;
          out := out[name := ServerEntry(cfg.transport, cfg.url, HeadersFrom(read))];
        }
      }
      rest := rest - {name};
    }
    r := Config(out);
  }

  /** `sessionStore.getClient(sessionId)`, with the fact that it leaves every later answer as it was. */
  method LookUp(store: SessionStore.SessionStore, sessionId: string) returns (c: Option<SessionStore.Client>)
    modifies store, store.kv
    ensures c == LiveClient(old(store.clients), old(store.kv.entries), store.useRedis, sessionId)
    ensures forall sid :: LiveClient(store.clients, store.kv.entries, store.useRedis, sid)
                          == LiveClient(old(store.clients), old(store.kv.entries), store.useRedis, sid)
  {
    c := store.GetClient(sessionId);
  }
}
