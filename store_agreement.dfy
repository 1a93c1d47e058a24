/**
 * How the OAuth provider and the session store see each other through the one
 * Redis they share. They agree on the `mcp:session:` namespace but not on the
 * key layout (`{userId}:{sessionId}` against `{sessionId}`) nor on the TTL
 * (43200 s against 86400 s).
 */
module StoreAgreement {
  import opened Wrappers
  import opened Strings
  import opened Kv
  import opened OAuthTypes
  import OAuthProvider
  import SessionStore

  /** The store's metadata key for a session is never the provider's record key for it. */
  lemma {:induction false} StoreKeyIsNotProviderKey(userId: string, sessionId: string)
    ensures SessionStore.StoreKey(sessionId) != OAuthProvider.SessionKey(userId, sessionId)
  {
    assert |OAuthProvider.SessionKey(userId, sessionId)| > |SessionStore.StoreKey(sessionId)|;
  }

  /** `setClient(id, c)` then `getClient(id)` returns `c`, with or without Redis. */
  method SetThenGetClient(store: SessionStore.SessionStore, sessionId: string, c: SessionStore.Client, now: int)
    returns (r: Option<SessionStore.Client>)
    modifies store, store.kv
    ensures r == Some(c)
  {
    store.SetClient(sessionId, c, now);
    r := store.GetClient(sessionId);
  }

  /**
   * `setServerSession(s, u, v)` then `getServerSession(s, u)` returns `v` when
   * `v` is non-empty. An empty `v` is a miss in memory; Redis then hands back
   * the empty string, and without Redis the answer is `null`.
   */
  method SetThenGetServerSession(store: SessionStore.SessionStore, sessionId: string, serverUrl: string, value: string)
    returns (r: Option<string>)
    requires store.Valid()
    modifies store, store.kv
    ensures value != "" ==> r == Some(value)
    ensures value == "" && store.useRedis ==> r == Some("")
    ensures value == "" && !store.useRedis ==> r == None
  {
    store.SetServerSession(sessionId, serverUrl, value);
    r := store.GetServerSession(sessionId, serverUrl);
  }

  /**
   * `setClient(t, c)` and `setServerSession(s, u, t)` for a non-empty `t`,
   * then `getClientByServer(s, u)` returns `c`, with or without Redis.
   */
  method MapThenGetClientByServer(store: SessionStore.SessionStore, sessionId: string, serverUrl: string,
                                  target: string, c: SessionStore.Client, now: int)
    returns (r: Option<SessionStore.Client>)
    requires store.Valid() && target != ""
    modifies store, store.kv
    ensures r == Some(c)
  {
    store.SetServerSession(sessionId, serverUrl, target);
    store.SetClient(target, c, now);
    ghost var mapped;
    r, mapped := store.GetClientByServer(sessionId, serverUrl);
  }

  /**
   * `setClient(t, c)` and `setServerSession(s, u, t)` for a non-empty `t`,
   * then `removeServerSession(s, u)`: `c` is disconnected and forgotten, and
   * the pair is gone.
   */
  method MapThenRemoveServerSession(store: SessionStore.SessionStore, sessionId: string, serverUrl: string,
                                    target: string, c: SessionStore.Client, now: int)
    requires store.Valid() && target != ""
    modifies store, store.kv
    ensures target !in store.clients
    ensures store.disconnected == old(store.disconnected) + [c]
    ensures serverUrl !in SessionStore.MappingsOf(store.serverToSession, sessionId)
  {
    store.SetServerSession(sessionId, serverUrl, target);
    store.SetClient(target, c, now);
    ghost var removed := store.RemoveServerSession(sessionId, serverUrl);
  }

  /** With Redis, `getAllSessionIds` lists the provider's record as a session id of the form `userId:sessionId`. */
  method ProviderRecordListedAsSession(store: SessionStore.SessionStore, p: OAuthProvider.RedisOAuthClientProvider)
    returns (ids: seq<string>)
    requires store.kv == p.kv && store.useRedis
    requires p.Key() in p.kv.entries
    ensures p.userId + ":" + p.sessionId in ids
  {
    ids := store.GetAllSessionIds();
    assert SessionKeyPrefix + (p.userId + ":" + p.sessionId) == p.Key();
  }

  /** `clearAll` also deletes the provider's record, after which `checkState` fails for every state. */
  method ClearAllDropsProviderRecord(store: SessionStore.SessionStore, p: OAuthProvider.RedisOAuthClientProvider, state: string)
    returns (check: OAuthProvider.StateCheck)
    requires store.kv == p.kv && store.useRedis
    modifies store, store.kv
    ensures p.Key() !in p.kv.entries
    ensures !check.valid && check.error == Some("Session not found")
  {
    store.ClearAll();
    check := p.CheckState(state);
  }

  /** A provider save followed by the store's cleanup: the record keeps its positive TTL, so the tokens still load. */
  method CleanupKeepsSavedTokens(store: SessionStore.SessionStore, p: OAuthProvider.RedisOAuthClientProvider, t: Tokens, now: int)
    returns (saved: Outcome<OAuthProvider.ProviderError>, loaded: Option<Tokens>)
    requires store.kv == p.kv
    modifies p, store.kv
    ensures saved.Pass? ==> loaded == Some(t)
  {
    saved := p.SaveTokens(t, now);
    store.CleanupExpiredSessions();
    loaded := p.TokensLoad();
    if saved.Pass? {
      OAuthProvider.TokensRoundTrip(old(p.kv.entries), p.Key(), t, now);
    }
  }
}
