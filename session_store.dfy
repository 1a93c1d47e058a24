/**
 * SessionStore: the live MCP clients of this process, by session id, and a
 * nested index `sessionId -> (serverUrl -> sessionId)`. Both live in memory;
 * when Redis is in use, session metadata (`mcp:session:{sessionId}`) and the
 * server mappings (`mcp:session:session:{sessionId}:url:{serverUrl}`) are also
 * written there with a TTL of 86400 seconds.
 */
module SessionStore {
  import opened Wrappers
  import opened Strings
  import opened Kv

  /** The TTL the store gives its keys, in seconds (24 hours). */
  const StoreTtl := 86400

  /** A connected MCP client; the object itself is not part of the model, only its identity. */
  datatype Client = Client(id: nat)

  /** The Redis key of a session's metadata. */
  function StoreKey(sessionId: string): (k: string)
    ensures HasPrefix(k, SessionKeyPrefix) && k[|SessionKeyPrefix|..] == sessionId
  {
    SessionKeyPrefix + sessionId
  }

  /** The KEYS pattern (without its `*`) that matches every server mapping of a session. */
  function MappingPrefix(sessionId: string): string {
    SessionKeyPrefix + "session:" + sessionId + ":url:"
  }

  /** The Redis key of one server mapping. */
  function MappingKey(sessionId: string, serverUrl: string): (k: string)
    ensures HasPrefix(k, MappingPrefix(sessionId)) && HasPrefix(k, SessionKeyPrefix)
  {
    MappingPrefix(sessionId) + serverUrl
  }

  /** The metadata record `setClient` writes. */
  function Metadata(sessionId: string, now: int): Fields {
    map["sessionId" := VString(sessionId), "createdAt" := VNumber(now), "active" := VBool(true)]
  }

  /** The string GET returns for a payload; the text of a JSON record is stood in for by a placeholder. */
  function PayloadText(p: Payload): (s: string)
    ensures p.Text? ==> s == p.s
    ensures p.Record? ==> s != ""
  {
    match p
    case Text(s) => s
    case Record(_) => "{}"
  }

  /** The inner map of one session, `{}` when it has none. */
  function MappingsOf(index: map<string, map<string, string>>, sessionId: string): map<string, string> {
    if sessionId in index then index[sessionId] else map[]
  }

  /** `serverUrl` is mapped to `target` in `inner`. */
  predicate MapsTo(inner: map<string, string>, serverUrl: string, target: string) {
    serverUrl in inner && inner[serverUrl] == target
  }

  /** What `removeClient(sessionId)` does to one inner map: the first mapping to `sessionId`, if any, is gone. */
  ghost predicate DropsOneMapping(inner: map<string, string>, sessionId: string, after: map<string, string>) {
    if exists s :: MapsTo(inner, s, sessionId)
    then exists s :: MapsTo(inner, s, sessionId) && after == inner - {s}
    else after == inner
  }

  /** The index after `removeClient(sessionId)`: each session loses at most one mapping, and only to `sessionId`. */
  ghost predicate ClientMappingsRemoved(before: map<string, map<string, string>>, sessionId: string,
                                  after: map<string, map<string, string>>) {
    after.Keys <= before.Keys
    && forall u :: u in before ==> DropsOneMapping(before[u], sessionId, MappingsOf(after, u))
  }

  /** The keys `cleanupExpiredSessions` deletes: store keys whose TTL is not positive. */
  function StaleKeys(entries: map<string, Entry>): set<string> {
    set k | k in entries && HasPrefix(k, SessionKeyPrefix) && entries[k].ttl <= 0
  }

  /**
   * What `getServerSession(sessionId, serverUrl)` answers in a given state: a
   * truthy in-memory value, else, with Redis, the stored string (possibly
   * `""`), else null.
   */
  function MappedSession(index: map<string, map<string, string>>, entries: map<string, Entry>, useRedis: bool,
                         sessionId: string, serverUrl: string): Option<string>
  {
    var cached := MappingsOf(index, sessionId);
    var key := MappingKey(sessionId, serverUrl);
    if serverUrl in cached && Truthy(cached[serverUrl]) then Some(cached[serverUrl])
    else if !useRedis || key !in entries then None
    else Some(PayloadText(entries[key].payload))
  }

  /** The first mapping of `inner` to `target`; map order is abstracted, so any one of them. */
  method FindMapping(inner: map<string, string>, target: string) returns (found: Option<string>)
    ensures found.Some? ==> MapsTo(inner, found.value, target)
    ensures found.None? ==> forall s :: s in inner ==> inner[s] != target
  {
    var rest := inner.Keys;
    while rest != {}
      invariant rest <= inner.Keys
      invariant forall s :: s in inner && s !in rest ==> inner[s] != target
      decreases rest
    {
      var s :| s in rest;
      if inner[s] == target {
        return Some(s);
      }
      rest := rest - {s};
    }
    found := None;
  }

  /** No session of the index has an empty inner map. */
  predicate NoEmptyInner(index: map<string, map<string, string>>) {
    forall u :: u in index ==> index[u] != map[]
  }

  /** One step of the index loop of `removeClient`: session `u` loses its first mapping to `sessionId`, if any. */
  method DropFromSession(index: map<string, map<string, string>>, u: string, sessionId: string)
    returns (after: map<string, map<string, string>>)
    requires NoEmptyInner(index) && u in index
    ensures NoEmptyInner(after)
    ensures after.Keys <= index.Keys
    ensures forall v :: v in index && v != u ==> v in after && after[v] == index[v]
    ensures DropsOneMapping(index[u], sessionId, MappingsOf(after, u))
  {
    after := index;
    var found := FindMapping(index[u], sessionId);
    if found.Some? {
      var inner := index[u] - {found.value};
      if inner == map[] {
        after := index - {u};
      } else {
        after := index[u := inner];
      }
      assert MappingsOf(after, u) == index[u] - {found.value};
    }
  }

  /** The index loop of `removeClient`: in each session, drop the first mapping to `sessionId`, and the session once empty. */
  method DropClientMappings(index: map<string, map<string, string>>, sessionId: string)
    returns (after: map<string, map<string, string>>)
    requires NoEmptyInner(index)
    ensures NoEmptyInner(after)
    ensures ClientMappingsRemoved(index, sessionId, after)
  {
    after := index;
    var rest := index.Keys;
    while rest != {}
      invariant rest <= index.Keys
      invariant after.Keys <= index.Keys
      invariant forall u :: u in rest ==> u in after && after[u] == index[u]
      invariant forall u :: u in index && u !in rest ==> DropsOneMapping(index[u], sessionId, MappingsOf(after, u))
      invariant NoEmptyInner(after)
      decreases rest
    {
      var u :| u in rest;
      after := DropFromSession(after, u, sessionId);
      rest := rest - {u};
    }
  }

  /** `clients.forEach(...)`: every client of the map once per session id, in some order. */
  method EachClient(clients: map<string, Client>) returns (each: seq<Client>)
    ensures |each| == |clients|
    ensures forall k :: k in clients ==> clients[k] in each
    ensures forall c :: c in each ==> c in clients.Values
  {
    each := [];
    var rest := clients.Keys;
    while rest != {}
      invariant rest <= clients.Keys
      invariant |each| == |clients.Keys - rest|
      invariant forall k :: k in clients && k !in rest ==> clients[k] in each
      invariant forall c :: c in each ==> c in clients.Values
      decreases rest
    {
      var k :| k in rest;
      assert clients.Keys - (rest - {k}) == (clients.Keys - rest) + {k};
      each := each + [clients[k]];
      rest := rest - {k};
    }
    assert clients.Keys - rest == clients.Keys;
  }

  class SessionStore {
    var clients: map<string, Client>
    var serverToSession: map<string, map<string, string>>
    /** Redis connected and in use; it is decided once, at start-up. */
    const useRedis: bool
    const kv: KvStore
    /** The clients `disconnect()` was called on, oldest first. */
    var disconnected: seq<Client>

    /** No session is left with an empty inner map: every path that empties one deletes it. */
    predicate Valid()
      reads this
    {
      NoEmptyInner(serverToSession)
    }

    constructor (useRedis: bool, kv: KvStore)
      ensures Valid()
      ensures this.useRedis == useRedis && this.kv == kv
      ensures clients == map[] && serverToSession == map[] && disconnected == []
    {
      this.useRedis := useRedis;
      this.kv := kv;
      clients := map[];
      serverToSession := map[];
      disconnected := [];
    }

    /** `setClient(sessionId, client)` at time `now` (ms). */
    method SetClient(sessionId: string, client: Client, now: int)
      modifies this`clients, kv
      ensures clients == old(clients)[sessionId := client]
      ensures useRedis ==> kv.entries == old(kv.entries)[StoreKey(sessionId) := Entry(Record(Metadata(sessionId, now)), StoreTtl)]
      ensures !useRedis ==> kv.entries == old(kv.entries)
    {
      clients := clients[sessionId := client];
      if useRedis {
        kv.SetEx(StoreKey(sessionId), StoreTtl, Record(Metadata(sessionId, now)));
      }
    }

    /**
     * `getClient(sessionId)`: with Redis, a client whose metadata key is gone
     * is dropped from memory; one whose key is there gets its TTL refreshed.
     */
    method GetClient(sessionId: string) returns (c: Option<Client>)
      modifies this`clients, kv
      ensures sessionId !in old(clients) ==> c == None && clients == old(clients) && kv.entries == old(kv.entries)
      ensures sessionId in old(clients) && useRedis && StoreKey(sessionId) !in old(kv.entries) ==>
                c == None && clients == old(clients) - {sessionId} && kv.entries == old(kv.entries)
      ensures sessionId in old(clients) && useRedis && StoreKey(sessionId) in old(kv.entries) ==>
                c == Some(old(clients)[sessionId]) && clients == old(clients) &&
                kv.entries == old(kv.entries)[StoreKey(sessionId) := Entry(old(kv.entries)[StoreKey(sessionId)].payload, StoreTtl)]
      ensures sessionId in old(clients) && !useRedis ==>
                c == Some(old(clients)[sessionId]) && clients == old(clients) && kv.entries == old(kv.entries)
    {
      if sessionId !in clients {
        return None;
      }
      var client := clients[sessionId];
      if useRedis {
        var present := kv.Exists(StoreKey(sessionId));
        if !present {
          clients := clients - {sessionId};
          return None;
        }
        kv.Expire(StoreKey(sessionId), StoreTtl);
      }
      c := Some(client);
    }

    /**
     * `removeClient(sessionId)`: disconnects and forgets the client, deletes its
     * Redis key and server mappings, and removes from every session of the
     * index the FIRST mapping whose value is `sessionId`.
     */
    method RemoveClient(sessionId: string)
      requires Valid()
      modifies this`clients, this`serverToSession, this`disconnected, kv
      ensures Valid()
      ensures clients == old(clients) - {sessionId}
      ensures disconnected == if sessionId in old(clients) then old(disconnected) + [old(clients)[sessionId]] else old(disconnected)
      ensures useRedis ==> kv.entries == old(kv.entries) - {StoreKey(sessionId)} - KeysWithPrefix(old(kv.entries), MappingPrefix(sessionId))
      ensures !useRedis ==> kv.entries == old(kv.entries)
      ensures ClientMappingsRemoved(old(serverToSession), sessionId, serverToSession)
    {
      if sessionId in clients {
        disconnected := disconnected + [clients[sessionId]];
        clients := clients - {sessionId};
      }
      if useRedis {
        kv.Del([StoreKey(sessionId)]);
        var keys := kv.Keys(MappingPrefix(sessionId));
        if |keys| > 0 {
          kv.Del(keys);
        }
        assert (set k | k in keys) == KeysWithPrefix(old(kv.entries), MappingPrefix(sessionId)) - {StoreKey(sessionId)};
      }
      serverToSession := DropClientMappings(serverToSession, sessionId);
    }

    /**
     * `getAllSessionIds()`: with Redis, every key under `mcp:session:` with the
     * prefix cut off, whoever wrote it; otherwise the ids of the clients in memory.
     */
    method GetAllSessionIds() returns (ids: seq<string>)
      ensures Distinct(ids)
      ensures useRedis ==> forall id :: id in ids <==> SessionKeyPrefix + id in kv.entries
      ensures !useRedis ==> forall id :: id in ids <==> id in clients
    {
      if useRedis {
        var keys := kv.Keys(SessionKeyPrefix);
        assert forall j :: 0 <= j < |keys| ==> HasPrefix(keys[j], SessionKeyPrefix) by {
          forall j | 0 <= j < |keys| ensures HasPrefix(keys[j], SessionKeyPrefix) {
            assert keys[j] in keys;
          }
        }
        ids := seq(|keys|, j requires 0 <= j < |keys| => keys[j][|SessionKeyPrefix|..]);
        forall j | 0 <= j < |keys|
          ensures SessionKeyPrefix + ids[j] == keys[j]
        {
          StripPrefix(keys[j], SessionKeyPrefix);
        }
        forall id | id in ids
          ensures SessionKeyPrefix + id in kv.entries
        {
          var j :| 0 <= j < |ids| && ids[j] == id;
          assert keys[j] in keys;
        }
        forall id | SessionKeyPrefix + id in kv.entries
          ensures id in ids
        {
          var k := SessionKeyPrefix + id;
          assert k[..|SessionKeyPrefix|] == SessionKeyPrefix;
          assert k in keys;
          var j :| 0 <= j < |keys| && keys[j] == k;
          assert k[|SessionKeyPrefix|..] == id;
          assert ids[j] == id;
        }
      } else {
        ids := [];
        var rest := clients.Keys;
        while rest != {}
          invariant rest <= clients.Keys
          invariant Distinct(ids)
          invariant forall id :: id in ids ==> id !in rest
          invariant forall id :: id in ids <==> id in clients && id !in rest
          decreases rest
        {
          var id :| id in rest;
          ids := ids + [id];
          rest := rest - {id};
        }
      }
    }

    /**
     * `clearAll()`: disconnects every client, empties both in-memory maps and,
     * with Redis, deletes every key under `mcp:session:`.
     */
    method ClearAll()
      modifies this`clients, this`serverToSession, this`disconnected, kv
      ensures Valid()
      ensures clients == map[] && serverToSession == map[]
      ensures |disconnected| == |old(disconnected)| + |old(clients)|
      ensures disconnected[..|old(disconnected)|] == old(disconnected)
      ensures forall k :: k in old(clients) ==> old(clients)[k] in disconnected[|old(disconnected)|..]
      ensures useRedis ==> kv.entries == old(kv.entries) - KeysWithPrefix(old(kv.entries), SessionKeyPrefix)
      ensures !useRedis ==> kv.entries == old(kv.entries)
    {
      var each := EachClient(clients);
      disconnected := disconnected + each;
      clients := map[];
      serverToSession := map[];
      if useRedis {
        var keys := kv.Keys(SessionKeyPrefix);
        if |keys| > 0 {
          kv.Del(keys);
        }
        assert (set k | k in keys) == KeysWithPrefix(old(kv.entries), SessionKeyPrefix);
      }
    }

    /** `setServerSession(sessionId, serverUrl, value)`. */
    method SetServerSession(sessionId: string, serverUrl: string, value: string)
      requires Valid()
      modifies this`serverToSession, kv
      ensures Valid()
      ensures serverToSession == old(serverToSession)[sessionId := MappingsOf(old(serverToSession), sessionId)[serverUrl := value]]
      ensures useRedis ==> kv.entries == old(kv.entries)[MappingKey(sessionId, serverUrl) := Entry(Text(value), StoreTtl)]
      ensures !useRedis ==> kv.entries == old(kv.entries)
    {
      serverToSession := serverToSession[sessionId := MappingsOf(serverToSession, sessionId)[serverUrl := value]];
      assert serverUrl in serverToSession[sessionId];
      if useRedis {
        kv.SetEx(MappingKey(sessionId, serverUrl), StoreTtl, Text(value));
      }
    }

    /**
     * `getServerSession(sessionId, serverUrl)`: a truthy in-memory value wins;
     * otherwise, with Redis, the stored string is returned (possibly `""`) and,
     * when truthy, cached in memory with its TTL refreshed.
     */
    method GetServerSession(sessionId: string, serverUrl: string) returns (r: Option<string>)
      requires Valid()
      modifies this`serverToSession, kv
      ensures Valid()
      ensures r == MappedSession(old(serverToSession), old(kv.entries), useRedis, sessionId, serverUrl)
      ensures var cached := MappingsOf(old(serverToSession), sessionId);
              if serverUrl in cached && Truthy(cached[serverUrl]) then
                r == Some(cached[serverUrl]) && serverToSession == old(serverToSession) && kv.entries == old(kv.entries)
              else if !useRedis then
                r == None && serverToSession == old(serverToSession) && kv.entries == old(kv.entries)
              else
                var key := MappingKey(sessionId, serverUrl);
                r == (if key in old(kv.entries) then Some(PayloadText(old(kv.entries)[key].payload)) else None) &&
                if TruthyOpt(r) then
                  serverToSession == old(serverToSession)[sessionId := cached[serverUrl := r.value]] &&
                  kv.entries == old(kv.entries)[key := Entry(old(kv.entries)[key].payload, StoreTtl)]
                else
                  serverToSession == old(serverToSession) && kv.entries == old(kv.entries)
    {
      var cached := MappingsOf(serverToSession, sessionId);
      if serverUrl in cached && Truthy(cached[serverUrl]) {
        return Some(cached[serverUrl]);
      }
      if !useRedis {
        return None;
      }
      var key := MappingKey(sessionId, serverUrl);
      var raw := kv.Get(key);
      r := if raw.Some? then Some(PayloadText(raw.value)) else None;
      if TruthyOpt(r) {
        serverToSession := serverToSession[sessionId := cached[serverUrl := r.value]];
        kv.Expire(key, StoreTtl);
      }
    }

    /**
     * `removeServerSession(sessionId, serverUrl)`: removes the client the
     * mapping points to (when there is one), then the mapping itself.
     */
    method RemoveServerSession(sessionId: string, serverUrl: string) returns (ghost target: Option<string>)
      requires Valid()
      modifies this`clients, this`serverToSession, this`disconnected, kv
      ensures Valid()
      ensures target == MappedSession(old(serverToSession), old(kv.entries), useRedis, sessionId, serverUrl)
      ensures serverUrl !in MappingsOf(serverToSession, sessionId)
      ensures serverToSession.Keys <= old(serverToSession).Keys + {sessionId}
      ensures TruthyOpt(target) ==>
                clients == old(clients) - {target.value} &&
                disconnected == if target.value in old(clients) then old(disconnected) + [old(clients)[target.value]] else old(disconnected)
      ensures !TruthyOpt(target) ==> clients == old(clients) && disconnected == old(disconnected)
      ensures useRedis ==>
                kv.entries == old(kv.entries) - {MappingKey(sessionId, serverUrl)} -
                  (if TruthyOpt(target) then {StoreKey(target.value)} + KeysWithPrefix(old(kv.entries), MappingPrefix(target.value)) else {})
      ensures !useRedis ==> kv.entries == old(kv.entries)
    {
      ghost var before := kv.entries;
      var stored := LookUpMapping(sessionId, serverUrl);
      target := stored;
      var mk := MappingKey(sessionId, serverUrl);
      ghost var refreshed := kv.entries;
      if TruthyOpt(stored) {
        RemoveClient(stored.value);
        if useRedis {
          RefreshedThenDropped(before, refreshed, mk, StoreKey(stored.value), MappingPrefix(stored.value));
        }
      }
      DropServerMapping(sessionId, serverUrl);
      if useRedis {
        kv.Del([mk]);
      }
    }

    /** The lookup `removeServerSession` starts with: `getServerSession`, which at most refreshes the mapping key. */
    method LookUpMapping(sessionId: string, serverUrl: string) returns (r: Option<string>)
      requires Valid()
      modifies this`serverToSession, kv
      ensures Valid()
      ensures r == MappedSession(old(serverToSession), old(kv.entries), useRedis, sessionId, serverUrl)
      ensures serverToSession.Keys <= old(serverToSession).Keys + {sessionId}
      ensures kv.entries.Keys == old(kv.entries).Keys
      ensures forall k :: k in old(kv.entries) && k != MappingKey(sessionId, serverUrl) ==> kv.entries[k] == old(kv.entries)[k]
      ensures !useRedis ==> kv.entries == old(kv.entries)
    {
      r := GetServerSession(sessionId, serverUrl);
    }

    /** The in-memory half of `removeServerSession`: the pair goes, and its session too once left empty. */
    method DropServerMapping(sessionId: string, serverUrl: string)
      requires Valid()
      modifies this`serverToSession
      ensures Valid()
      ensures serverToSession ==
                if sessionId !in old(serverToSession) then old(serverToSession)
                else if old(serverToSession)[sessionId] - {serverUrl} == map[] then old(serverToSession) - {sessionId}
                else old(serverToSession)[sessionId := old(serverToSession)[sessionId] - {serverUrl}]
    {
      if sessionId in serverToSession {
        var inner := serverToSession[sessionId] - {serverUrl};
        if inner == map[] {
          serverToSession := serverToSession - {sessionId};
        } else {
          serverToSession := serverToSession[sessionId := inner];
        }
      }
    }

    /**
     * `getClientByServer(sessionId, serverUrl)`: the mapping's target, looked
     * up with `getClient`, which drops a client whose Redis key is gone.
     */
    method GetClientByServer(sessionId: string, serverUrl: string) returns (c: Option<Client>, ghost target: Option<string>)
      requires Valid()
      modifies this`clients, this`serverToSession, kv
      ensures Valid()
      ensures target == MappedSession(old(serverToSession), old(kv.entries), useRedis, sessionId, serverUrl)
      ensures c == if TruthyOpt(target) && target.value in old(clients) && (!useRedis || StoreKey(target.value) in old(kv.entries))
                   then Some(old(clients)[target.value]) else None
      ensures clients == if TruthyOpt(target) && target.value in old(clients) && useRedis && StoreKey(target.value) !in old(kv.entries)
                         then old(clients) - {target.value} else old(clients)
      ensures TruthyOpt(target) ==>
                serverToSession == old(serverToSession)[sessionId := MappingsOf(old(serverToSession), sessionId)[serverUrl := target.value]]
      ensures !TruthyOpt(target) ==> serverToSession == old(serverToSession)
      ensures kv.entries.Keys == old(kv.entries).Keys
      ensures forall k :: k in old(kv.entries) ==> kv.entries[k].payload == old(kv.entries)[k].payload
      ensures forall k :: k in old(kv.entries) ==>
                k == MappingKey(sessionId, serverUrl) || (TruthyOpt(target) && k == StoreKey(target.value)) ||
                kv.entries[k] == old(kv.entries)[k]
    {
      ghost var before := kv.entries;
      ghost var index := serverToSession;
      var stored := GetServerSession(sessionId, serverUrl);
      target := stored;
      assert kv.entries.Keys == before.Keys;
      if TruthyOpt(stored) {
        ghost var cached := MappingsOf(index, sessionId);
        if serverUrl in cached && Truthy(cached[serverUrl]) {
          assert cached[serverUrl := stored.value] == cached;
          assert index[sessionId := cached] == index;
        }
        c := GetClient(stored.value);
      } else {
        c := None;
      }
    }

    /**
     * `cleanupExpiredSessions()`: with Redis, deletes every key under
     * `mcp:session:` whose TTL is not positive, including keys with no expiry
     * (TTL -1).
     */
    method CleanupExpiredSessions()
      modifies kv
      ensures useRedis ==> kv.entries == old(kv.entries) - StaleKeys(old(kv.entries))
      ensures !useRedis ==> kv.entries == old(kv.entries)
    {
      if !useRedis {
        return;
      }
      var keys := kv.Keys(SessionKeyPrefix);
      ghost var before := kv.entries;
      var i := 0;
      while i < |keys|
        invariant 0 <= i <= |keys|
        invariant kv.entries.Keys <= before.Keys
        invariant forall k :: k in kv.entries ==> kv.entries[k] == before[k]
        invariant forall k :: k in before ==> (k in kv.entries <==> !(k in keys[..i] && before[k].ttl <= 0))
      {
        assert keys[i] !in keys[..i];
        var t := kv.Ttl(keys[i]);
        if t <= 0 {
          kv.Del([keys[i]]);
        }
        assert keys[..i + 1] == keys[..i] + [keys[i]];
        i := i + 1;
      }
      assert keys[..i] == keys;
      assert kv.entries.Keys == (before - StaleKeys(before)).Keys;
    }
  }

  /**
   * Deleting keys from a store whose entry under `mk` alone was refreshed, and
   * then `mk` itself, deletes the same keys from the store before the refresh.
   */
  lemma RefreshedThenDropped(before: map<string, Entry>, refreshed: map<string, Entry>, mk: string, sk: string, p: string)
    requires refreshed.Keys == before.Keys
    requires forall k :: k in before && k != mk ==> refreshed[k] == before[k]
    ensures refreshed - {sk} - KeysWithPrefix(refreshed, p) - {mk} == before - {mk} - ({sk} + KeysWithPrefix(before, p))
  {
    assert KeysWithPrefix(refreshed, p) == KeysWithPrefix(before, p);
  }

  /** A key with the prefix is the prefix followed by what is left after cutting it off. */
  lemma StripPrefix(k: string, p: string)
    requires HasPrefix(k, p)
    ensures p + k[|p|..] == k
  {
    assert k == k[..|p|] + k[|p|..];
  }

  /** When no session maps two servers to `sessionId`, `removeClient` leaves no mapping to it. */
  lemma {:induction false} UniqueMappingsAllRemoved(before: map<string, map<string, string>>, sessionId: string,
                                                     after: map<string, map<string, string>>)
    requires ClientMappingsRemoved(before, sessionId, after)
    requires forall u, s1, s2 :: u in before && MapsTo(before[u], s1, sessionId) && MapsTo(before[u], s2, sessionId) ==> s1 == s2
    ensures forall u, s :: u in after ==> !MapsTo(after[u], s, sessionId)
  {
    forall u, s | u in after
      ensures !MapsTo(after[u], s, sessionId)
    {
      assert u in before;
      assert DropsOneMapping(before[u], sessionId, MappingsOf(after, u));
      if exists s' :: MapsTo(before[u], s', sessionId) {
        var removed :| MapsTo(before[u], removed, sessionId) && after[u] == before[u] - {removed};
        if MapsTo(after[u], s, sessionId) {
          assert MapsTo(before[u], s, sessionId);
        }
      }
    }
  }

  /** A session mapping two servers to `sessionId` keeps one of them after `removeClient(sessionId)`. */
  lemma {:induction false} DuplicateMappingSurvives(before: map<string, map<string, string>>, sessionId: string,
                                                     after: map<string, map<string, string>>, u: string, s1: string, s2: string)
    requires ClientMappingsRemoved(before, sessionId, after)
    requires u in before && s1 != s2 && MapsTo(before[u], s1, sessionId) && MapsTo(before[u], s2, sessionId)
    ensures MapsTo(MappingsOf(after, u), s1, sessionId) || MapsTo(MappingsOf(after, u), s2, sessionId)
  {
    assert DropsOneMapping(before[u], sessionId, MappingsOf(after, u));
    assert exists s :: MapsTo(before[u], s, sessionId);
    var removed :| MapsTo(before[u], removed, sessionId) && MappingsOf(after, u) == before[u] - {removed};
    if removed == s1 {
      assert MapsTo(MappingsOf(after, u), s2, sessionId);
    } else {
      assert MapsTo(MappingsOf(after, u), s1, sessionId);
    }
  }

  /** After cleanup, every remaining key under the prefix has a positive TTL, and no other key was touched. */
  lemma CleanupLeavesLiveKeys(entries: map<string, Entry>)
    ensures forall k :: k in entries - StaleKeys(entries) && HasPrefix(k, SessionKeyPrefix) ==> (entries - StaleKeys(entries))[k].ttl > 0
    ensures forall k :: k in entries && !HasPrefix(k, SessionKeyPrefix) ==> k in entries - StaleKeys(entries)
  {
  }
}
