/** The OAuth payloads that session records carry. */
module OAuthTypes {
  import opened Wrappers

  /** A token response (section 5.1 of RFC 6749); `expiresIn` is in seconds. */
  datatype Tokens = Tokens(
    accessToken: string,
    tokenType: string,
    expiresIn: Option<int>,
    refreshToken: Option<string>,
    scope: Option<string>)

  /** A dynamic client registration response (section 3.2.1 of RFC 7591). */
  datatype ClientInformation = ClientInformation(
    clientId: string,
    clientSecret: Option<string>,
    redirectUris: seq<string>)
}

/**
 * The Redis server that both the OAuth provider and the session store talk to,
 * reduced to the commands they issue: GET, SETEX, DEL, EXISTS, EXPIRE, TTL and
 * KEYS with a `prefix*` pattern. Every command succeeds; the passing of time
 * (keys expiring on their own) is not modelled, so an entry's `ttl` is the TTL
 * last given to it.
 */
module Kv {
  import opened Wrappers
  import opened Strings
  import opened OAuthTypes

  /** A JSON value found in a stored session record. */
  datatype Value =
    | VString(s: string)
    | VNumber(n: int)
    | VBool(b: bool)
    | VTokens(tokens: Tokens)
    | VClientInformation(info: ClientInformation)

  /** The members of a JSON object, by name. */
  type Fields = map<string, Value>

  /**
   * What a key holds: the text `JSON.stringify` made of an object, or a bare
   * string that is not JSON (a server mapping's session id, or anything else
   * `JSON.parse` would reject).
   */
  datatype Payload = Record(fields: Fields) | Text(s: string)

  /** A stored value and its TTL in seconds. */
  datatype Entry = Entry(payload: Payload, ttl: int)

  /** The namespace every session key lives in, shared by the OAuth provider and the session store. */
  const SessionKeyPrefix := "mcp:session:"

  /** What TTL reports for a key that has no expiry. */
  const NoExpiry := -1
  /** What TTL reports for a key that does not exist. */
  const MissingKey := -2

  /** What GET returns, as a string: `null` for a missing key. */
  function GetText(entries: map<string, Entry>, key: string): (r: Option<Payload>)
    ensures r.Some? <==> key in entries
    ensures r.Some? ==> r.value == entries[key].payload
  {
    if key in entries then Some(entries[key].payload) else None
  }

  /** The keys a `prefix*` KEYS pattern matches. */
  function KeysWithPrefix(entries: map<string, Entry>, prefix: string): set<string> {
    set k | k in entries && HasPrefix(k, prefix)
  }

  /** The elements of a sequence are pairwise distinct. */
  predicate Distinct<T(==)>(s: seq<T>) {
    forall i, j :: 0 <= i < j < |s| ==> s[i] != s[j]
  }

  class KvStore {
    var entries: map<string, Entry>

    constructor ()
      ensures entries == map[]
    {
      entries := map[];
    }

    /** GET key. */
    method Get(key: string) returns (r: Option<Payload>)
      ensures r == GetText(entries, key)
    {
      r := if key in entries then Some(entries[key].payload) else None;
    }

    /** SETEX key ttl value: writes the value and gives it the TTL. */
    method SetEx(key: string, ttl: int, p: Payload)
      modifies this
      ensures entries == old(entries)[key := Entry(p, ttl)]
    {
      entries := entries[key := Entry(p, ttl)];
    }

    /** DEL key ...: removes every listed key. */
    method Del(keys: seq<string>)
      modifies this
      ensures entries == old(entries) - set k | k in keys
    {
      entries := entries - set k | k in keys;
    }

    /** EXISTS key. */
    method Exists(key: string) returns (b: bool)
      ensures b <==> key in entries
    {
      b := key in entries;
    }

    /** EXPIRE key ttl: resets the TTL of an existing key, and does nothing otherwise. */
    method Expire(key: string, ttl: int)
      modifies this
      ensures key in old(entries) ==> entries == old(entries)[key := Entry(old(entries)[key].payload, ttl)]
      ensures key !in old(entries) ==> entries == old(entries)
    {
      if key in entries {
        entries := entries[key := Entry(entries[key].payload, ttl)];
      }
    }

    /** TTL key. */
    method Ttl(key: string) returns (t: int)
      ensures key in entries ==> t == entries[key].ttl
      ensures key !in entries ==> t == MissingKey
    {
      t := if key in entries then entries[key].ttl else MissingKey;
    }

    /** KEYS prefix*: every matching key exactly once, in no particular order. */
    method Keys(prefix: string) returns (ks: seq<string>)
      ensures Distinct(ks)
      ensures forall k :: k in ks <==> k in KeysWithPrefix(entries, prefix)
    {
      ks := [];
      var rest := entries.Keys;
      while rest != {}
        invariant rest <= entries.Keys
        invariant Distinct(ks)
        invariant forall k :: k in ks ==> k !in rest
        invariant forall k :: k in ks <==> k in entries && k !in rest && HasPrefix(k, prefix)
        decreases rest
      {
        var k :| k in rest;
        if HasPrefix(k, prefix) {
          ks := ks + [k];
        }
        rest := rest - {k};
      }
    }
  }
}
