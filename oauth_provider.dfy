/**
 * RedisOAuthClientProvider: the OAuth client state of one MCP session, kept as
 * one JSON record in Redis under `mcp:session:{userId}:{sessionId}` with a TTL
 * of 43200 seconds, plus three in-memory mirrors (`clientId`,
 * `tokenExpiresAt`, `authUrl`).
 *
 * Every saver reads the record, changes its copy, and hands the copy to
 * `saveSessionData`, which reads the record AGAIN and writes
 * `{...existing, ...copy}`. A member removed from the copy is therefore still
 * taken from `existing`: the record keeps every member it ever had.
 */
module OAuthProvider {
  import opened Wrappers
  import opened Strings
  import opened OAuthTypes
  import opened Kv

  /** The TTL every save gives the record, in seconds (12 hours). */
  const SessionTtl := 43200
  /** Subtracted from a token's lifetime when its expiry time is computed (5 minutes). */
  const ExpiryBufferMs := 5 * 60 * 1000

  // Member names of the stored record.
  const ClientInformationField := "clientInformation"
  const TokensField := "tokens"
  const CodeVerifierField := "codeVerifier"
  const ClientIdField := "clientId"
  const TokenExpiresAtField := "tokenExpiresAt"

  /** The record's key for one user's session. */
  function SessionKey(userId: string, sessionId: string): (k: string)
    ensures HasPrefix(k, SessionKeyPrefix)
    ensures |k| == |SessionKeyPrefix| + |userId| + 1 + |sessionId|
  {
    SessionKeyPrefix + userId + ":" + sessionId
  }

  /** What a saver throws, or what `codeVerifier` throws. */
  datatype ProviderError =
    | CorruptRecord   // JSON.parse failed inside saveSessionData
    | NoCodeVerifier  // "No code verifier found"

  // ---------------------------------------------------------------------------
  // The record as the provider reads and writes it
  // ---------------------------------------------------------------------------

  /** `getSessionData`: the stored object, or `{}` when the key is missing, holds "" or is not JSON. */
  function ReadRecord(entries: map<string, Entry>, key: string): (f: Fields)
    ensures key in entries && entries[key].payload.Record? ==> f == entries[key].payload.fields
    ensures key !in entries || entries[key].payload.Text? ==> f == map[]
  {
    if key in entries && entries[key].payload.Record? then entries[key].payload.fields else map[]
  }

  /** `saveSessionData` can parse what it finds: no key, an empty string, or a JSON object. */
  predicate Mergeable(entries: map<string, Entry>, key: string) {
    key !in entries || entries[key].payload.Record? || entries[key].payload.s == ""
  }

  /** `{...existing, ...data}`: members of `data` win, the other members of `existing` stay. */
  function Merge(existing: Fields, data: Fields): (m: Fields)
    ensures m.Keys == existing.Keys + data.Keys
    ensures forall k :: k in data ==> m[k] == data[k]
    ensures forall k :: k in existing && k !in data ==> m[k] == existing[k]
  {
    existing + data
  }

  /** The store after a successful `saveSessionData(data)`. */
  function Saved(entries: map<string, Entry>, key: string, data: Fields): map<string, Entry>
    requires Mergeable(entries, key)
  {
    entries[key := Entry(Record(Merge(ReadRecord(entries, key), data)), SessionTtl)]
  }

  /** A member read as a string; a member of another JSON type reads as missing. */
  function StringMember(f: Fields, name: string): Option<string> {
    if name in f && f[name].VString? then Some(f[name].s) else None
  }

  function NumberMember(f: Fields, name: string): Option<int> {
    if name in f && f[name].VNumber? then Some(f[name].n) else None
  }

  function TokensMember(f: Fields): Option<Tokens> {
    if TokensField in f && f[TokensField].VTokens? then Some(f[TokensField].tokens) else None
  }

  function ClientInformationMember(f: Fields): Option<ClientInformation> {
    if ClientInformationField in f && f[ClientInformationField].VClientInformation?
    then Some(f[ClientInformationField].info)
    else None
  }

  /** A number is truthy in JavaScript when it is not 0. */
  predicate TruthyNumber(o: Option<int>) {
    o.Some? && o.value != 0
  }

  /** The lazy restore of the `clientId` mirror: only an unset mirror takes the stored value. */
  function RestoredClientId(mirror: Option<string>, f: Fields): (r: Option<string>)
    ensures TruthyOpt(mirror) ==> r == mirror
    ensures !TruthyOpt(StringMember(f, ClientIdField)) ==> r == mirror
  {
    if TruthyOpt(StringMember(f, ClientIdField)) && !TruthyOpt(mirror) then StringMember(f, ClientIdField) else mirror
  }

  /** The lazy restore of the `tokenExpiresAt` mirror. */
  function RestoredExpiry(mirror: Option<int>, f: Fields): (r: Option<int>)
    ensures TruthyNumber(mirror) ==> r == mirror
    ensures !TruthyNumber(NumberMember(f, TokenExpiresAtField)) ==> r == mirror
  {
    if TruthyNumber(NumberMember(f, TokenExpiresAtField)) && !TruthyNumber(mirror)
    then NumberMember(f, TokenExpiresAtField)
    else mirror
  }

  /** The expiry `saveTokens` computes at time `now` (ms), when `expires_in` is truthy. */
  function ExpiryFor(t: Tokens, now: int): Option<int> {
    if TruthyNumber(t.expiresIn) then Some(now + t.expiresIn.value * 1000 - ExpiryBufferMs) else None
  }

  /** The copy `saveTokens` hands to `saveSessionData`. */
  function TokensData(f: Fields, t: Tokens, now: int): (d: Fields)
    ensures TokensMember(d) == Some(t)
    ensures ExpiryFor(t, now).Some? ==> NumberMember(d, TokenExpiresAtField) == ExpiryFor(t, now)
    ensures ExpiryFor(t, now).None? ==> NumberMember(d, TokenExpiresAtField) == NumberMember(f, TokenExpiresAtField)
  {
    var withTokens := f[TokensField := VTokens(t)];
    match ExpiryFor(t, now)
    case Some(at) => withTokens[TokenExpiresAtField := VNumber(at)]
    case None => withTokens
  }

  /** The copy `saveClientInformation` hands to `saveSessionData`. */
  function ClientInformationData(f: Fields, info: ClientInformation): Fields {
    f[ClientInformationField := VClientInformation(info)][ClientIdField := VString(info.clientId)]
  }

  /** What `invalidateCredentials` may be asked to forget. */
  datatype Scope = All | Client | TokensScope | Verifier

  /** The members `invalidateCredentials(scope)` deletes from its copy (not for `All`). */
  function ScopeMembers(scope: Scope): set<string> {
    match scope
    case All => {}
    case Client => {ClientInformationField, ClientIdField}
    case TokensScope => {TokensField}
    case Verifier => {CodeVerifierField}
  }

  /** `codeVerifier()` on a record: the verifier, or the error when it is missing or empty. */
  function VerifierOf(f: Fields): (r: Result<string, ProviderError>)
    ensures r.Ok? <==> TruthyOpt(StringMember(f, CodeVerifierField))
    ensures r.Ok? ==> r.value == f[CodeVerifierField].s
    ensures r.Err? ==> r.error == NoCodeVerifier
  {
    var v := StringMember(f, CodeVerifierField);
    if TruthyOpt(v) then Ok(v.value) else Err(NoCodeVerifier)
  }

  /** `checkState`'s test: GET returns a truthy string for the key. */
  predicate RecordPresent(entries: map<string, Entry>, key: string) {
    key in entries && entries[key].payload != Text("")
  }

  /** The registration request body (section 2 of RFC 7591). */
  datatype ClientMetadata = ClientMetadata(
    clientName: string,
    clientUri: string,
    grantTypes: seq<string>,
    redirectUris: seq<string>,
    responseTypes: seq<string>,
    tokenEndpointAuthMethod: string,
    clientId: Option<string>)

  datatype StateCheck = StateCheck(valid: bool, serverId: Option<string>, error: Option<string>)

  /** `isTokenExpired` at time `now` (ms) for a given expiry mirror. */
  predicate ExpiredAt(mirror: Option<int>, now: int) {
    TruthyNumber(mirror) && now >= mirror.value
  }

  // ---------------------------------------------------------------------------
  // The provider object
  // ---------------------------------------------------------------------------

  class RedisOAuthClientProvider {
    const userId: string
    const serverId: string
    const sessionId: string
    const clientName: string
    const baseRedirectUrl: string
    /** `new URL(baseRedirectUrl).origin`; URL parsing is not part of the model. */
    const clientUri: string
    /** Whether the constructor was given an `onRedirect` callback. */
    const hasOnRedirect: bool
    const kv: KvStore

    var authUrl: Option<string>
    var clientId: Option<string>
    var tokenExpiresAt: Option<int>
    /** The URLs passed to `onRedirect`, oldest first. */
    var redirected: seq<string>

    constructor (userId: string, serverId: string, sessionId: string, clientName: string,
                 baseRedirectUrl: string, clientUri: string, hasOnRedirect: bool, kv: KvStore)
      ensures this.userId == userId && this.serverId == serverId && this.sessionId == sessionId
      ensures this.clientName == clientName && this.baseRedirectUrl == baseRedirectUrl
      ensures this.clientUri == clientUri && this.hasOnRedirect == hasOnRedirect && this.kv == kv
      ensures authUrl == None && clientId == None && tokenExpiresAt == None && redirected == []
    {
      this.userId := userId;
      this.serverId := serverId;
      this.sessionId := sessionId;
      this.clientName := clientName;
      this.baseRedirectUrl := baseRedirectUrl;
      this.clientUri := clientUri;
      this.hasOnRedirect := hasOnRedirect;
      this.kv := kv;
      authUrl := None;
      clientId := None;
      tokenExpiresAt := None;
      redirected := [];
    }

    function Key(): string {
      SessionKey(userId, sessionId)
    }

    /** `clientMetadata`: `client_id` is included exactly when the mirror is truthy. */
    function ClientMetadataBody(): (m: ClientMetadata)
      reads this
      ensures m.clientId.Some? <==> TruthyOpt(clientId)
      ensures m.clientId.Some? ==> m.clientId == clientId
      ensures m.grantTypes == ["authorization_code", "refresh_token"]
      ensures m.tokenEndpointAuthMethod == "none"
      ensures m.redirectUris == [baseRedirectUrl] && m.responseTypes == ["code"]
      ensures m.clientName == clientName && m.clientUri == clientUri
    {
      ClientMetadata(clientName, clientUri, ["authorization_code", "refresh_token"], [baseRedirectUrl],
                     ["code"], "none", if TruthyOpt(clientId) then clientId else None)
    }

    method GetSessionData() returns (data: Fields)
      ensures data == ReadRecord(kv.entries, Key())
    {
      var raw := kv.Get(Key());
      if raw.Some? && raw.value.Record? {
        data := raw.value.fields;
      } else {
        data := map[];
      }
    }

    method SaveSessionData(data: Fields) returns (r: Outcome<ProviderError>)
      modifies kv
      ensures r.Pass? <==> Mergeable(old(kv.entries), Key())
      ensures r.Pass? ==> kv.entries == Saved(old(kv.entries), Key(), data)
      ensures r.Fail? ==> kv.entries == old(kv.entries) && r.error == CorruptRecord
    {
      var raw := kv.Get(Key());
      var existing: Fields;
      if raw.None? || raw.value == Text("") {
        existing := map[];
      } else if raw.value.Record? {
        existing := raw.value.fields;
      } else {
        return Fail(CorruptRecord);
      }
      kv.SetEx(Key(), SessionTtl, Record(Merge(existing, data)));
      r := Pass;
    }

    method ClientInformationLoad() returns (info: Option<ClientInformation>)
      modifies this`clientId
      ensures info == ClientInformationMember(ReadRecord(kv.entries, Key()))
      ensures clientId == RestoredClientId(old(clientId), ReadRecord(kv.entries, Key()))
    {
      var data := GetSessionData();
      if TruthyOpt(StringMember(data, ClientIdField)) && !TruthyOpt(clientId) {
        clientId := StringMember(data, ClientIdField);
      }
      info := ClientInformationMember(data);
    }

    method SaveClientInformation(info: ClientInformation) returns (r: Outcome<ProviderError>)
      modifies this`clientId, kv
      ensures r.Pass? <==> Mergeable(old(kv.entries), Key())
      ensures r.Pass? ==> kv.entries == Saved(old(kv.entries), Key(),
                                              ClientInformationData(ReadRecord(old(kv.entries), Key()), info))
      ensures r.Pass? ==> clientId == Some(info.clientId)
      ensures r.Fail? ==> kv.entries == old(kv.entries) && clientId == old(clientId)
    {
      var data := GetSessionData();
      data := ClientInformationData(data, info);
      r := SaveSessionData(data);
      if r.Pass? {
        clientId := Some(info.clientId);
      }
    }

    /** `saveTokens` at time `now` (ms): the mirror is set before the write, so even a failed write sets it. */
    method SaveTokens(t: Tokens, now: int) returns (r: Outcome<ProviderError>)
      modifies this`tokenExpiresAt, kv
      ensures r.Pass? <==> Mergeable(old(kv.entries), Key())
      ensures r.Pass? ==> kv.entries == Saved(old(kv.entries), Key(), TokensData(ReadRecord(old(kv.entries), Key()), t, now))
      ensures r.Fail? ==> kv.entries == old(kv.entries)
      ensures tokenExpiresAt == if ExpiryFor(t, now).Some? then ExpiryFor(t, now) else old(tokenExpiresAt)
    {
      var data := GetSessionData();
      if TruthyNumber(t.expiresIn) {
        tokenExpiresAt := ExpiryFor(t, now);
      }
      data := TokensData(data, t, now);
      r := SaveSessionData(data);
    }

    /** `state()`: the session id is the OAuth `state` parameter (section 4.1.1 of RFC 6749). */
    function State(): (s: string)
      ensures s == sessionId
    {
      sessionId
    }

    /** `checkState(state)`: looks only at this provider's own record; `state` is never read. */
    function CheckState(state: string): (r: StateCheck)
      reads kv
      ensures r.valid <==> RecordPresent(kv.entries, Key())
      ensures r.valid ==> r.serverId == Some(serverId) && r.error == None
      ensures !r.valid ==> r.serverId == None && r.error == Some("Session not found")
    {
      if RecordPresent(kv.entries, Key()) then StateCheck(true, Some(serverId), None)
      else StateCheck(false, None, Some("Session not found"))
    }

    /** `consumeState`: does nothing. */
    method ConsumeState(state: string)
      ensures unchanged(this, kv)
    {
    }

    method RedirectToAuthorization(url: string)
      modifies this`authUrl, this`redirected
      ensures authUrl == Some(url)
      ensures redirected == if hasOnRedirect then old(redirected) + [url] else old(redirected)
    {
      authUrl := Some(url);
      if hasOnRedirect {
        redirected := redirected + [url];
      }
    }

    /**
     * `invalidateCredentials(scope)`: `All` deletes the record; the other scopes
     * delete members from the copy only, so the merge writes them back.
     */
    method InvalidateCredentials(scope: Scope) returns (r: Outcome<ProviderError>)
      modifies kv
      ensures scope == All ==> r.Pass? && kv.entries == old(kv.entries) - {Key()}
      ensures scope != All ==> (r.Pass? <==> Mergeable(old(kv.entries), Key()))
      ensures scope != All && r.Pass? ==>
                kv.entries == Saved(old(kv.entries), Key(), ReadRecord(old(kv.entries), Key()) - ScopeMembers(scope))
      ensures r.Fail? ==> kv.entries == old(kv.entries)
    {
      if scope == All {
        kv.Del([Key()]);
        r := Pass;
      } else {
        var data := GetSessionData();
        data := data - ScopeMembers(scope);
        r := SaveSessionData(data);
      }
    }

    method SaveCodeVerifier(verifier: string) returns (r: Outcome<ProviderError>)
      modifies kv
      ensures r.Pass? <==> Mergeable(old(kv.entries), Key())
      ensures r.Pass? ==> kv.entries == Saved(old(kv.entries), Key(),
                                              ReadRecord(old(kv.entries), Key())[CodeVerifierField := VString(verifier)])
      ensures r.Fail? ==> kv.entries == old(kv.entries)
    {
      var data := GetSessionData();
      data := data[CodeVerifierField := VString(verifier)];
      r := SaveSessionData(data);
    }

    method CodeVerifier() returns (r: Result<string, ProviderError>)
      modifies this`clientId
      ensures r == VerifierOf(ReadRecord(kv.entries, Key()))
      ensures clientId == RestoredClientId(old(clientId), ReadRecord(kv.entries, Key()))
    {
      var data := GetSessionData();
      if TruthyOpt(StringMember(data, ClientIdField)) && !TruthyOpt(clientId) {
        clientId := StringMember(data, ClientIdField);
      }
      var v := StringMember(data, CodeVerifierField);
      if !TruthyOpt(v) {
        return Err(NoCodeVerifier);
      }
      r := Ok(v.value);
    }

    method DeleteCodeVerifier() returns (r: Outcome<ProviderError>)
      modifies kv
      ensures r.Pass? <==> Mergeable(old(kv.entries), Key())
      ensures r.Pass? ==> kv.entries == Saved(old(kv.entries), Key(), ReadRecord(old(kv.entries), Key()) - {CodeVerifierField})
      ensures r.Fail? ==> kv.entries == old(kv.entries)
    {
      var data := GetSessionData();
      data := data - {CodeVerifierField};
      r := SaveSessionData(data);
    }

    method TokensLoad() returns (t: Option<Tokens>)
      modifies this`clientId, this`tokenExpiresAt
      ensures t == TokensMember(ReadRecord(kv.entries, Key()))
      ensures clientId == RestoredClientId(old(clientId), ReadRecord(kv.entries, Key()))
      ensures tokenExpiresAt == RestoredExpiry(old(tokenExpiresAt), ReadRecord(kv.entries, Key()))
    {
      var data := GetSessionData();
      if TruthyOpt(StringMember(data, ClientIdField)) && !TruthyOpt(clientId) {
        clientId := StringMember(data, ClientIdField);
      }
      if TruthyNumber(NumberMember(data, TokenExpiresAtField)) && !TruthyNumber(tokenExpiresAt) {
        tokenExpiresAt := NumberMember(data, TokenExpiresAtField);
      }
      t := TokensMember(data);
    }

    /** `isTokenExpired()` at time `now` (ms): false while no expiry is known. */
    function IsTokenExpired(now: int): (expired: bool)
      reads this
      ensures !TruthyNumber(tokenExpiresAt) ==> !expired
      ensures TruthyNumber(tokenExpiresAt) ==> (expired <==> now >= tokenExpiresAt.value)
    {
      ExpiredAt(tokenExpiresAt, now)
    }

    method SetTokenExpiresAt(expiresAt: int)
      modifies this`tokenExpiresAt
      ensures tokenExpiresAt == Some(expiresAt)
    {
      tokenExpiresAt := Some(expiresAt);
    }
  }

  // ---------------------------------------------------------------------------
  // Properties of the record logic
  // ---------------------------------------------------------------------------

  /** A save never removes a member: the written record holds the old members and the new ones, with TTL 43200. */
  lemma SaveKeepsMembers(entries: map<string, Entry>, key: string, data: Fields)
    requires Mergeable(entries, key)
    ensures key in Saved(entries, key, data) && Saved(entries, key, data)[key].ttl == SessionTtl
    ensures ReadRecord(Saved(entries, key, data), key).Keys == ReadRecord(entries, key).Keys + data.Keys
    ensures forall k :: k in data ==> ReadRecord(Saved(entries, key, data), key)[k] == data[k]
    ensures forall other :: other != key ==> GetText(Saved(entries, key, data), other) == GetText(entries, other)
  {
  }

  /** `saveTokens(T)` then `tokens()` returns T. */
  lemma TokensRoundTrip(entries: map<string, Entry>, key: string, t: Tokens, now: int)
    requires Mergeable(entries, key)
    ensures TokensMember(ReadRecord(Saved(entries, key, TokensData(ReadRecord(entries, key), t, now)), key)) == Some(t)
  {
  }

  /** A truthy `expires_in` stores `now + expires_in*1000 - 300000`; otherwise the stored expiry stays as it was. */
  lemma TokensStoreExpiry(entries: map<string, Entry>, key: string, t: Tokens, now: int)
    requires Mergeable(entries, key)
    ensures var after := ReadRecord(Saved(entries, key, TokensData(ReadRecord(entries, key), t, now)), key);
            if TruthyNumber(t.expiresIn)
            then NumberMember(after, TokenExpiresAtField) == Some(now + t.expiresIn.value * 1000 - 300000)
            else NumberMember(after, TokenExpiresAtField) == NumberMember(ReadRecord(entries, key), TokenExpiresAtField)
  {
  }

  /** Right after saving tokens whose lifetime exceeds the 300 s buffer, they are not expired. */
  lemma FreshTokensNotExpired(t: Tokens, now: int)
    requires t.expiresIn.Some? && t.expiresIn.value > 300
    ensures !ExpiredAt(ExpiryFor(t, now), now)
  {
  }

  /** Once the full `expires_in` has elapsed, the tokens read as expired (`now` is a `Date.now()` reading, never negative). */
  lemma TokensExpireWithinLifetime(t: Tokens, now: int, later: int)
    requires now >= 0
    requires t.expiresIn.Some? && t.expiresIn.value > 300
    requires later >= now + t.expiresIn.value * 1000
    ensures ExpiredAt(ExpiryFor(t, now), later)
  {
  }

  /**
   * `invalidateCredentials` with scope client, tokens or verifier, and
   * `deleteCodeVerifier`, leave the record's members exactly as they were;
   * they only reset its TTL, or create an empty record when there was none.
   */
  lemma {:induction false} ClearingLeavesRecord(entries: map<string, Entry>, key: string, removed: set<string>)
    requires Mergeable(entries, key)
    ensures ReadRecord(Saved(entries, key, ReadRecord(entries, key) - removed), key) == ReadRecord(entries, key)
    ensures RecordPresent(Saved(entries, key, ReadRecord(entries, key) - removed), key)
  {
    var f := ReadRecord(entries, key);
    var m := Merge(f, f - removed);
    assert m.Keys == f.Keys;
    assert forall k :: k in m ==> m[k] == f[k];
  }

  /** `saveCodeVerifier(v)` then `codeVerifier()` returns v, unless v is "" (then it throws). */
  lemma VerifierRoundTrip(entries: map<string, Entry>, key: string, v: string)
    requires Mergeable(entries, key)
    ensures var after := ReadRecord(Saved(entries, key, ReadRecord(entries, key)[CodeVerifierField := VString(v)]), key);
            VerifierOf(after) == if v != "" then Ok(v) else Err(NoCodeVerifier)
  {
  }

  /** A verifier saved and then "deleted" is still returned by `codeVerifier()`. */
  lemma DeletedVerifierStillLoads(entries: map<string, Entry>, key: string, v: string)
    requires Mergeable(entries, key)
    requires v != ""
    ensures var saved := Saved(entries, key, ReadRecord(entries, key)[CodeVerifierField := VString(v)]);
            Mergeable(saved, key) &&
            VerifierOf(ReadRecord(Saved(saved, key, ReadRecord(saved, key) - {CodeVerifierField}), key)) == Ok(v)
  {
    var saved := Saved(entries, key, ReadRecord(entries, key)[CodeVerifierField := VString(v)]);
    ClearingLeavesRecord(saved, key, {CodeVerifierField});
  }

  /** Any save makes `checkState` succeed afterwards, whatever state string it is given. */
  lemma SaveMakesStateValid(p: RedisOAuthClientProvider, entries: map<string, Entry>, data: Fields)
    requires Mergeable(entries, p.Key())
    ensures RecordPresent(Saved(entries, p.Key(), data), p.Key())
  {
  }

  /** `checkState` gives the same answer for every argument. */
  lemma CheckStateIgnoresArgument(p: RedisOAuthClientProvider, s1: string, s2: string)
    ensures p.CheckState(s1) == p.CheckState(s2)
  {
  }

  // ---------------------------------------------------------------------------
  // Call sequences on one provider
  // ---------------------------------------------------------------------------

  /** `saveTokens(T)` followed by `tokens()` on the same provider returns T. */
  method SaveTokensThenLoad(p: RedisOAuthClientProvider, t: Tokens, now: int)
    returns (saved: Outcome<ProviderError>, loaded: Option<Tokens>)
    modifies p, p.kv
    ensures saved.Pass? <==> Mergeable(old(p.kv.entries), p.Key())
    ensures saved.Pass? ==> loaded == Some(t) && p.Key() in p.kv.entries && p.kv.entries[p.Key()].ttl == SessionTtl
    ensures ExpiryFor(t, now).Some? ==> p.tokenExpiresAt == ExpiryFor(t, now)
  {
    saved := p.SaveTokens(t, now);
    loaded := p.TokensLoad();
    if saved.Pass? {
      TokensRoundTrip(old(p.kv.entries), p.Key(), t, now);
    }
  }

  /** After `saveTokens` at time `now` with `expires_in > 300`, `isTokenExpired(now)` is false. */
  method SaveTokensThenCheckExpiry(p: RedisOAuthClientProvider, t: Tokens, now: int) returns (expired: bool)
    requires t.expiresIn.Some? && t.expiresIn.value > 300
    modifies p, p.kv
    ensures !expired
  {
    var _ := p.SaveTokens(t, now);
    expired := p.IsTokenExpired(now);
  }

  /** `saveClientInformation(C)` then `clientInformation()` returns C and sets the mirror to C's id. */
  method SaveThenLoadClientInformation(p: RedisOAuthClientProvider, info: ClientInformation)
    returns (saved: Outcome<ProviderError>, loaded: Option<ClientInformation>)
    modifies p, p.kv
    ensures saved.Pass? ==> loaded == Some(info) && p.clientId == Some(info.clientId)
    ensures saved.Pass? && info.clientId != "" ==> p.ClientMetadataBody().clientId == Some(info.clientId)
  {
    saved := p.SaveClientInformation(info);
    loaded := p.ClientInformationLoad();
  }
}
