# MCP assistant: OAuth session records, routes and client-side selection logic

A Dafny model of the core of the MCP assistant web application: the Next.js
app through which a signed-in user connects to remote MCP servers over OAuth
and chats with an agent that uses those servers' tools.

The model covers:

- **OAuth session persistence.** `RedisOAuthClientProvider` keeps one JSON
  record per session: client registration (section 2 of RFC 7591), tokens and
  `expires_in` (section 5.1 of RFC 6749), and the PKCE verifier (section 4.1
  of RFC 7636). Every save is a read-merge-write. The provider also keeps two
  lazily restored in-memory mirrors, `clientId` and `tokenExpiresAt`.
- **The hybrid `SessionStore`.** It has in-memory `clients`, a nested
  `serverToSession` index and optional Redis metadata.
- **Redis.** Both of the above share one key-value store object (`Kv.KvStore`),
  so the model can state where they agree and where they do not
  (`StoreAgreement`).
- **The routes.** The OAuth callback ladder, the secure `server-config`
  builder, `GET/POST/PATCH/DELETE /api/mcp` (orderBy parsing, `pageInfo`, the
  conflict and not-found rules, category replacement) and `GET /api/categories`.
- **The client side.** The registry cursor history, the filtered-servers hook,
  the store hooks' merge-and-filter, the connection hook and the connection
  provider, `useMcpTools`, the tools dropdown, chat message text extraction,
  and prefixed ids.

Oracles are passed in as parameters:

- the clock (`now`, in ms);
- `fetch` outcomes;
- Prisma, as an in-memory table;
- the Supabase user;
- `finishAuth`;
- what a client's `tokens()` returns;
- the `nanoid` suffix.

Toasts, `onRedirect` calls and emitted selections are logged as sequences on
the objects that produce them.

JavaScript details the model writes out explicitly:

- truthiness (`Strings.Truthy`, `Strings.TruthyOpt`);
- `parseInt` (`Pagination.ParseInt`);
- `String.prototype.trim` and `toLowerCase` (ASCII letters);
- objects as ordered entry lists (`JsObject`);
- `{...a, ...b}` (`OAuthProvider.Merge`).

## Model

| member | source | states |
|---|---|---|
| OAuthProvider.SessionKey | lib/mcp/redis-oauth-client-provider.ts:81-84 | the record key is `mcp:session:` followed by user id, `:` and session id |
| OAuthProvider.ReadRecord | lib/mcp/redis-oauth-client-provider.ts:86-100 | `getSessionData` yields the stored object, and `{}` for a missing key, an empty value or text that does not parse |
| OAuthProvider.Merge | lib/mcp/redis-oauth-client-provider.ts:115-118 | the merged record has exactly the keys of both; new members win and the other old members stay |
| OAuthProvider.RestoredClientId | lib/mcp/redis-oauth-client-provider.ts:129-131 | a set mirror is never replaced, and a record without a truthy `clientId` leaves the mirror as it was |
| OAuthProvider.RestoredExpiry | lib/mcp/redis-oauth-client-provider.ts:260-262 | the same lazy-restore rule for `tokenExpiresAt` |
| OAuthProvider.TokensData | lib/mcp/redis-oauth-client-provider.ts:153-166 | the saved copy holds the tokens; a truthy `expires_in` sets the expiry field, otherwise the old field stays |
| OAuthProvider.VerifierOf | lib/mcp/redis-oauth-client-provider.ts:239-242 | `codeVerifier()` succeeds exactly when the verifier is a non-empty string and returns it; otherwise "No code verifier found" |
| OAuthProvider.RedisOAuthClientProvider.constructor | lib/mcp/redis-oauth-client-provider.ts:41-50 | a new provider has its parameters and no auth URL, client id or expiry mirror |
| OAuthProvider.RedisOAuthClientProvider.ClientMetadataBody | lib/mcp/redis-oauth-client-provider.ts:52-62 | `client_id` is present exactly when the mirror is truthy; grant types are always authorization_code and refresh_token, and the auth method is always "none" |
| OAuthProvider.RedisOAuthClientProvider.GetSessionData | lib/mcp/redis-oauth-client-provider.ts:86-100 | reads the record without touching the store or its TTL |
| OAuthProvider.RedisOAuthClientProvider.SaveSessionData | lib/mcp/redis-oauth-client-provider.ts:103-123 | succeeds exactly when the stored value parses; it then writes the merged record with TTL 43200, otherwise it throws and leaves the store unchanged |
| OAuthProvider.RedisOAuthClientProvider.ClientInformationLoad | lib/mcp/redis-oauth-client-provider.ts:125-140 | returns the stored client information and lazily restores the client-id mirror |
| OAuthProvider.RedisOAuthClientProvider.SaveClientInformation | lib/mcp/redis-oauth-client-provider.ts:142-151 | stores the information and its `client_id`, then sets the mirror; a failed write leaves store and mirror unchanged |
| OAuthProvider.RedisOAuthClientProvider.SaveTokens | lib/mcp/redis-oauth-client-provider.ts:153-167 | merges the tokens and expiry into the record; the mirror follows a truthy `expires_in` even when the write fails |
| OAuthProvider.RedisOAuthClientProvider.State | lib/mcp/redis-oauth-client-provider.ts:173-176 | the OAuth `state` parameter is the session id |
| OAuthProvider.RedisOAuthClientProvider.CheckState | lib/mcp/redis-oauth-client-provider.ts:178-190 | valid exactly when this provider's own record is present, with its server id; otherwise "Session not found" |
| OAuthProvider.RedisOAuthClientProvider.ConsumeState | lib/mcp/redis-oauth-client-provider.ts:192-195 | changes nothing |
| OAuthProvider.RedisOAuthClientProvider.RedirectToAuthorization | lib/mcp/redis-oauth-client-provider.ts:197-202 | remembers the URL and passes it to `onRedirect` exactly when one was given |
| OAuthProvider.RedisOAuthClientProvider.InvalidateCredentials | lib/mcp/redis-oauth-client-provider.ts:204-221 | `all` deletes the record; any other scope writes back the record minus that scope's members through the merge |
| OAuthProvider.RedisOAuthClientProvider.SaveCodeVerifier | lib/mcp/redis-oauth-client-provider.ts:223-229 | merges the verifier into the record |
| OAuthProvider.RedisOAuthClientProvider.CodeVerifier | lib/mcp/redis-oauth-client-provider.ts:231-243 | returns the stored verifier or the error, and restores the client-id mirror |
| OAuthProvider.RedisOAuthClientProvider.DeleteCodeVerifier | lib/mcp/redis-oauth-client-provider.ts:245-249 | writes back the record without the verifier, through the merge |
| OAuthProvider.RedisOAuthClientProvider.TokensLoad | lib/mcp/redis-oauth-client-provider.ts:251-271 | returns the stored tokens and restores both mirrors |
| OAuthProvider.RedisOAuthClientProvider.IsTokenExpired | lib/mcp/redis-oauth-client-provider.ts:273-288 | false while no expiry is known; otherwise exactly `now >= tokenExpiresAt` |
| OAuthProvider.RedisOAuthClientProvider.SetTokenExpiresAt | lib/mcp/redis-oauth-client-provider.ts:293-295 | sets the expiry mirror |
| OAuthProvider.SaveKeepsMembers | lib/mcp/redis-oauth-client-provider.ts:111-121 | a save never removes a member; the record holds the old and new keys with TTL 43200, and no other key changes |
| OAuthProvider.TokensRoundTrip | lib/mcp/redis-oauth-client-provider.ts:153-167 | `saveTokens(T)` then `tokens()` returns T |
| OAuthProvider.TokensStoreExpiry | lib/mcp/redis-oauth-client-provider.ts:159-163 | a truthy `expires_in` stores `now + expires_in*1000 - 300000`; otherwise the stored expiry is unchanged |
| OAuthProvider.FreshTokensNotExpired | lib/mcp/redis-oauth-client-provider.ts:159-163 | tokens living more than 300 s are not expired at the moment they are saved |
| OAuthProvider.TokensExpireWithinLifetime | lib/mcp/redis-oauth-client-provider.ts:159-163 | once the full lifetime has elapsed, the tokens read as expired |
| OAuthProvider.ClearingLeavesRecord | lib/mcp/redis-oauth-client-provider.ts:210-219 | clearing members through the merge leaves the stored record exactly as it was, and still present |
| OAuthProvider.VerifierRoundTrip | lib/mcp/redis-oauth-client-provider.ts:223-242 | `saveCodeVerifier(v)` then `codeVerifier()` returns v for a non-empty v, and the error for "" |
| OAuthProvider.DeletedVerifierStillLoads | lib/mcp/redis-oauth-client-provider.ts:245-249 | a saved verifier is still returned after `deleteCodeVerifier` |
| OAuthProvider.SaveMakesStateValid | lib/mcp/redis-oauth-client-provider.ts:178-190 | after any save, `checkState` succeeds |
| OAuthProvider.CheckStateIgnoresArgument | lib/mcp/redis-oauth-client-provider.ts:178-190 | `checkState` gives the same answer for every state string |
| OAuthProvider.SaveTokensThenLoad | lib/mcp/redis-oauth-client-provider.ts:153-167 | on the provider object, a successful `saveTokens(T)` followed by `tokens()` returns T with the record's TTL at 43200 |
| OAuthProvider.SaveTokensThenCheckExpiry | lib/mcp/redis-oauth-client-provider.ts:273-288 | after `saveTokens` with `expires_in > 300` at time now, `isTokenExpired()` at now is false |
| OAuthProvider.SaveThenLoadClientInformation | lib/mcp/redis-oauth-client-provider.ts:142-151 | `saveClientInformation(C)` then `clientInformation()` returns C, and the metadata then carries C's id |
| SessionStore.StoreKey | lib/mcp/session-store.ts:79 | the metadata key is the `mcp:session:` prefix followed by the session id |
| SessionStore.MappingKey | lib/mcp/session-store.ts:230-235 | a server mapping's key lies under the session's mapping prefix, and under the store prefix |
| SessionStore.PayloadText | lib/mcp/session-store.ts:260 | GET returns a stored string as it is, and a record as a non-empty text |
| SessionStore.FindMapping | lib/mcp/session-store.ts:159-161 | finds a server mapped to the target, or reports that none is |
| SessionStore.DropClientMappings | lib/mcp/session-store.ts:158-168 | each session loses at most one mapping to the removed id (the `break`), and sessions left empty are deleted |
| SessionStore.EachClient | lib/mcp/session-store.ts:199 | the `forEach` visits every client of the map, once per session id |
| SessionStore.SessionStore.constructor | lib/mcp/session-store.ts:13-22 | a new store has no clients and no mappings |
| SessionStore.SessionStore.SetClient | lib/mcp/session-store.ts:72-93 | stores the client in memory; with Redis, writes `{sessionId, createdAt, active:true}` under its key with TTL 86400 |
| SessionStore.SessionStore.GetClient | lib/mcp/session-store.ts:98-128 | no in-memory client gives null; with Redis, a missing key also drops the client, and a present key gets TTL 86400 again |
| SessionStore.SessionStore.RemoveClient | lib/mcp/session-store.ts:133-169 | the client is disconnected and gone; other clients stay; Redis keys of the session and its mappings are deleted; the index loses at most one mapping per session |
| SessionStore.SessionStore.GetAllSessionIds | lib/mcp/session-store.ts:181-192 | with Redis, the stored keys under the prefix with the prefix cut off; without Redis, exactly the in-memory client ids |
| SessionStore.SessionStore.ClearAll | lib/mcp/session-store.ts:197-215 | every client is disconnected; both maps end empty; with Redis, every key under the prefix is deleted |
| SessionStore.SessionStore.SetServerSession | lib/mcp/session-store.ts:223-242 | the index maps the server to the value; with Redis, the value is stored under the mapping key with TTL 86400 |
| SessionStore.SessionStore.GetServerSession | lib/mcp/session-store.ts:248-282 | the answer is `MappedSession` of the old state: a truthy cached value wins; otherwise, with Redis, the stored string is returned, and a truthy one is cached with its TTL refreshed |
| SessionStore.SessionStore.DropServerMapping | lib/mcp/session-store.ts:295-299 | the in-memory pair is gone; its session goes too once left empty; every other session is untouched |
| SessionStore.SessionStore.RemoveServerSession | lib/mcp/session-store.ts:289-309 | the target is what `getServerSession` answered in the old state; a truthy target's client is removed and disconnected, and no other client changes; with Redis, exactly the mapping key, the target's key and its mapping keys are deleted; the pair is gone and no empty inner map remains |
| SessionStore.SessionStore.GetClientByServer | lib/mcp/session-store.ts:316-319 | the target is what `getServerSession` answered in the old state; the result is the client stored under a truthy target while its Redis key (if Redis is used) exists, else null; a client whose key is gone is dropped; the index changes only by caching a truthy Redis answer; Redis keeps every key and payload, and only the mapping key and the target's key can have their TTL refreshed |
| SessionStore.SessionStore.CleanupExpiredSessions | lib/mcp/session-store.ts:324-340 | without Redis a no-op; with Redis, it deletes exactly the keys under the prefix whose TTL is not positive |
| SessionStore.StripPrefix | lib/mcp/session-store.ts:186 | cutting the prefix off a key and putting it back gives the key |
| SessionStore.UniqueMappingsAllRemoved | lib/mcp/session-store.ts:158-168 | when no session maps two servers to the id, `removeClient` leaves no mapping to it |
| SessionStore.DuplicateMappingSurvives | lib/mcp/session-store.ts:158-168 | a session mapping two servers to the id keeps one of them |
| SessionStore.CleanupLeavesLiveKeys | lib/mcp/session-store.ts:331-335 | after cleanup every remaining key under the prefix has a positive TTL, and no key outside it is touched |
| StoreAgreement.StoreKeyIsNotProviderKey | lib/mcp/session-store.ts:79 | the store's key for a session is never the provider's key for it (the other side is lib/mcp/redis-oauth-client-provider.ts:82) |
| StoreAgreement.SetThenGetClient | lib/mcp/session-store.ts:72-128 | `setClient(id, c)` then `getClient(id)` returns c, with or without Redis |
| StoreAgreement.MapThenGetClientByServer | lib/mcp/session-store.ts:223-319 | after `setServerSession(s, u, t)` and `setClient(t, c)` for a non-empty t, `getClientByServer(s, u)` returns c |
| StoreAgreement.MapThenRemoveServerSession | lib/mcp/session-store.ts:223-309 | after `setServerSession(s, u, t)` and `setClient(t, c)` for a non-empty t, `removeServerSession(s, u)` disconnects and forgets c, and the pair is gone |
| StoreAgreement.SetThenGetServerSession | lib/mcp/session-store.ts:223-270 | `setServerSession` then `getServerSession` returns a non-empty value; an empty value reads as null without Redis and as "" with it |
| StoreAgreement.ProviderRecordListedAsSession | lib/mcp/session-store.ts:181-186 | with Redis, `getAllSessionIds` lists the provider's record as the id `userId:sessionId` |
| StoreAgreement.ClearAllDropsProviderRecord | lib/mcp/session-store.ts:204-210 | `clearAll` also deletes the provider's record, after which `checkState` fails |
| StoreAgreement.CleanupKeepsSavedTokens | lib/mcp/session-store.ts:324-340 | a provider save followed by cleanup keeps the tokens loadable |
| AuthCallback.QueryValue | app/api/mcp/auth/callback/route.ts:15-18 | `searchParams.get` finds a value exactly when the name occurs in the query |
| AuthCallback.ThrownMessage | app/api/mcp/auth/callback/route.ts:96-108 | a thrown Error gives its message; any other value gives the default text |
| AuthCallback.HandleCallback | app/api/mcp/auth/callback/route.ts:11-109 | every redirect targets `/auth/callback/success`; `finishAuth` is called exactly when state, code and user are present and there is no provider error, with those values |
| AuthCallback.MissingStateFirst | app/api/mcp/auth/callback/route.ts:24-29 | a missing state gives its error, whatever else is present |
| AuthCallback.ProviderErrorReported | app/api/mcp/auth/callback/route.ts:34-39 | a provider error is reported with `error_description`, else `error`, before code and user are looked at |
| AuthCallback.MissingCodeReported | app/api/mcp/auth/callback/route.ts:41-46 | a missing code gives "Authorization code is required" |
| AuthCallback.SignedOutNeverExchanges | app/api/mcp/auth/callback/route.ts:53-58 | without a user the answer is "Unauthorized - Please log in" and `finishAuth` is not called |
| AuthCallback.SuccessCarriesSession | app/api/mcp/auth/callback/route.ts:82-93 | success carries `step=success` and `sessionId = state`; server, serverId and serverUrl appear only when non-empty |
| AuthCallback.OptionalParamFound | app/api/mcp/auth/callback/route.ts:87-91 | an optional parameter can be read back exactly when its value was truthy |
| AuthCallback.QueryValueSkips | app/api/mcp/auth/callback/route.ts:15-18 | entries with other names before the one sought do not change the lookup |
| AuthCallback.FinishFailureReported | app/api/mcp/auth/callback/route.ts:96-108 | a throwing `finishAuth` gives `step=error` with the thrown message |
| AuthCallback.StepIsSuccessOrError | app/api/mcp/auth/callback/route.ts:22-108 | every redirect carries `step` = success or error |
| ServerConfig.HeadersFrom | app/api/mcp/server-config/route.ts:84-100 | a header exists exactly for a non-empty access token, and it is `Authorization: Bearer <token>` |
| ServerConfig.LiveClient | app/api/mcp/server-config/route.ts:54 | the store's `getClient` finds a client exactly when it is in memory and, with Redis, its key is present |
| ServerConfig.EntryFor | app/api/mcp/server-config/route.ts:43-115 | an entry keeps transport and url; without a session id or a client it has no headers; headers are only ever a non-empty Bearer token |
| ServerConfig.Post | app/api/mcp/server-config/route.ts:27-129 | a missing or non-object config gives 400; a `null` server entry makes the whole request a 500; otherwise the output has exactly the input's server names, each entry built independently from the store as the request found it |
| ServerConfig.LookUp | app/api/mcp/server-config/route.ts:54 | a lookup returns the live client and does not change what later lookups find |
| ServersRoute.OwnField | app/api/mcp/route.ts:128-134 | exactly name, created_at, createdAt, updated_at and updatedAt are known fields |
| ServersRoute.SplitOrderBy | app/api/mcp/route.ts:120-125 | orderBy defaults to `-createdAt`; a leading `-` means descending and the field is the rest |
| ServersRoute.ParseOrderBy | app/api/mcp/route.ts:120-142 | succeeds exactly for a known field, mapped to its Prisma column; otherwise "Invalid orderBy field" |
| ServersRoute.ParseRenderOrderBy | app/api/mcp/route.ts:120-142 | every order spec written back as a string parses to itself |
| ServersRoute.DefaultOrderIsNewestFirst | app/api/mcp/route.ts:120 | a missing or empty orderBy means createdAt descending |
| ServersRoute.InheritedNamePassesGuard | app/api/mcp/route.ts:136-137 | as written, `orderBy=toString` passes the guard that the field table is meant to enforce (see Findings) |
| ServersRoute.GuardAgreesOffPrototype | app/api/mcp/route.ts:136-142 | for every field that is not an `Object.prototype` member, the written guard and `ParseOrderBy` agree |
| ServersRoute.Matching | app/api/mcp/route.ts:145-156 | exactly the rows the intended `where` keeps (public or the signed-in caller's, and matching a search), in table order |
| ServersRoute.SignedOutSeesPrivateRows | app/api/mcp/route.ts:145-149 | as written, a signed-out caller is listed a private server that the intended filter hides (see Findings) |
| ServersRoute.WhereAgreesSignedIn | app/api/mcp/route.ts:145-149 | for a signed-in caller the written and the intended `where` keep the same rows |
| ServersRoute.HandleGet | app/api/mcp/route.ts:110-196 | a bad orderBy gives 400; a NaN limit or offset, or a negative offset, gives 500 and nothing else does; a page is `skip`/`take` (defaults 0 and 10, a negative take counting from the end) over the matching rows, with its `pageInfo` |
| ServersRoute.ListedServersVisible | app/api/mcp/route.ts:145-149 | every listed server is public or owned by the caller |
| ServersRoute.DefaultPage | app/api/mcp/route.ts:118-119 | without limit and offset, the first ten matching rows and no previous page |
| ServersRoute.PageHasNextIffMore | app/api/mcp/route.ts:182 | for a non-negative limit, a page has a next page exactly when matching rows remain after it |
| ServersRoute.NegativeLimitFromEnd | app/api/mcp/route.ts:118-119 | `limit=-n` gives the last n matching rows and always reports a next page |
| ServersRoute.NullIfFalsy | app/api/mcp/route.ts:239-243 | `x \|\| null` keeps exactly the truthy strings |
| ServersRoute.ServerTable.View | app/api/mcp/route.ts:35-59 | the server with exactly the categories linked to it |
| ServersRoute.ServerTable.FindUnique | app/api/mcp/route.ts:217-222 | finds the row with that (name, owner), or reports that there is none |
| ServersRoute.ServerTable.UpdateServerCategories | app/api/mcp/route.ts:65-88 | the server's links are dropped and, when every given id names a category, replaced by those ids; `null` or an unknown id fails with the links dropped; other servers' links stay |
| ServersRoute.ServerTable.Post | app/api/mcp/route.ts:201-265 | 401 without a user; 409 with no write when (name, owner) exists; a named body for a free (name, owner) and a fresh id writes the row, and is created unless a category id is unknown, which answers 500 with the row kept and no link; every other answer, including the 500s for a nameless body or a taken id, writes nothing; a creation is one new row with the body's fields and its links |
| ServersRoute.ServerTable.CreateRow | app/api/mcp/route.ts:234-253 | the new row is written; with every category id known its links are added and the answer is the created view, and an unknown id answers 500 with the row kept and no link |
| ServersRoute.ServerTable.InsertRow | app/api/mcp/route.ts:234-248 | `create` adds exactly the new row and keeps the table's invariants |
| ServersRoute.ServerTable.Patch | app/api/mcp/route.ts:272-341 | 401 without a user, 400 without a name, 404 when (name, owner) is absent, and none of these or an unparsable body writes anything; a found row is replaced by its patched value and nothing else changes; links stay, are replaced, or (for `null` or an unknown category id) are dropped before the 500; otherwise `Updated` with the new view |
| ServersRoute.ServerTable.PatchRow | app/api/mcp/route.ts:311-333 | the found row takes its patched value; the links follow `categoryIds`; `null` or an unknown category id gives 500 after the links are dropped |
| ServersRoute.ServerTable.ReplaceRow | app/api/mcp/route.ts:312-323 | `update` replaces exactly the row and keeps the table's invariants |
| ServersRoute.ServerTable.Delete | app/api/mcp/route.ts:348-390 | only rows matching both name and owner are removed; 404 when none matched |
| ServersRoute.DeleteRemovesAtMostOne | app/api/mcp/route.ts:365-377 | under the table's unique (name, owner) constraint, a delete removes at most one row |
| ServersRoute.ReplacementSetsCategories | app/api/mcp/route.ts:65-81 | after replacement the server's category set is exactly the given ids |
| CategoriesRoute.NameLeTotal | app/api/categories/route.ts:19 | the name order is total |
| CategoriesRoute.Insert | app/api/categories/route.ts:19 | inserting keeps every category (a permutation plus the new one) |
| CategoriesRoute.InsertSorted | app/api/categories/route.ts:19 | inserting into a sorted list keeps it sorted |
| CategoriesRoute.OrderByName | app/api/categories/route.ts:19 | ordering by name is a permutation |
| CategoriesRoute.OrderByNameSorted | app/api/categories/route.ts:19 | ordering by name sorts by name ascending |
| CategoriesRoute.HandleCategories | app/api/categories/route.ts:11-45 | a page exactly when limit and offset are integers and the offset is not negative; it is `skip`/`take` over the name-ordered table (a negative take from the end), with its `pageInfo` |
| CategoriesRoute.TakeSorted | app/api/categories/route.ts:18-22 | every page of a sorted list, from either end, is sorted |
| CategoriesRoute.CategoryPagesSorted | app/api/categories/route.ts:18-29 | every page's edges are in name-ascending order |
| CategoriesRoute.DefaultCategoryPage | app/api/categories/route.ts:14-15 | without limit and offset, the first 50 categories |
| Pagination.DigitValue | app/api/mcp/route.ts:118-119 | a digit's value is below its radix |
| Pagination.LeadingDigits | app/api/mcp/route.ts:118-119 | `parseInt` reads the longest prefix of digits |
| Pagination.IntParam | app/api/mcp/route.ts:118-119 | a missing or empty parameter takes the default; otherwise `parseInt` of it |
| Pagination.Decimal | hooks/useMcpServersFiltered.ts:44-45 | `n.toString()` is a non-empty string of decimal digits, with no leading zero |
| Pagination.DecimalValue | hooks/useMcpServersFiltered.ts:44-45 | a number's decimal digits read back as the number |
| Pagination.AllDigitsLead | app/api/mcp/route.ts:118-119 | a string of digits is read whole |
| Pagination.DecimalDigitsRead | app/api/mcp/route.ts:118-119 | the decimal text of n is read whole |
| Pagination.ParseIntDecimal | app/api/mcp/route.ts:118-119 | a limit or offset sent as `n.toString()` parses back to n |
| Pagination.ParseIntNegativeDecimal | app/api/mcp/route.ts:118-119 | `-n` parses back to -n |
| Pagination.MakePageInfo | app/api/mcp/route.ts:181-185 | `hasNextPage` exactly when offset + limit < total; `hasPreviousPage` exactly when offset > 0 |
| Pagination.Window | app/api/mcp/route.ts:166-167 | `skip`/`take`: at most limit rows, starting at offset |
| Pagination.Reverse | app/api/mcp/route.ts:166-167 | the rows in the opposite order |
| Pagination.FromEnd | app/api/mcp/route.ts:166-167 | a negative `take`: the last n rows before the skipped ones at the end |
| Pagination.FromEndIsReversedWindow | app/api/mcp/route.ts:166-167 | a negative `take` is the window of the reversed rows, reversed back |
| Pagination.Take | app/api/mcp/route.ts:166-167 | `skip`/`take`: the window for a non-negative take, from the end otherwise; always one contiguous run of the rows |
| Pagination.NextPageIffRowsRemain | app/api/categories/route.ts:31 | `hasNextPage` exactly when rows remain after the window |
| Pagination.TakeWithin | app/api/mcp/route.ts:166-167 | a page holds only rows of the table it was taken from |
| Pagination.WindowsTile | app/api/mcp/route.ts:166-167 | two consecutive pages are together the double-size page |
| GenerateId.PrefixText | lib/generate-id.ts:13-17 | each prefix is three characters |
| GenerateId.MakeId | lib/generate-id.ts:9-11 | an id is as long as its prefix plus 22 |
| GenerateId.SplitMakeId | lib/generate-id.ts:7-10 | an id is the prefix, `_` and a suffix of 21 alphanumeric characters, and it splits back into them |
| GenerateId.PrefixesSeparateIds | lib/generate-id.ts:13-17 | ids built with different prefixes differ |
| RegistryPager.RequestQuery | hooks/useRegistryServers.ts:25-28 | `cursor` and `search` are sent exactly when truthy |
| RegistryPager.Pager.HasNextPage | hooks/useRegistryServers.ts:16 | exactly when `nextCursor` is not null |
| RegistryPager.Pager.HasPreviousPage | hooks/useRegistryServers.ts:17 | exactly when the history is non-empty |
| RegistryPager.Pager.constructor | hooks/useRegistryServers.ts:8-14 | starts with an empty history and fetches the first page |
| RegistryPager.Pager.FetchServers | hooks/useRegistryServers.ts:19-56 | a success replaces servers, the next cursor and the current cursor; a failure changes none of them and sets the error |
| RegistryPager.Pager.GoToNextPage | hooks/useRegistryServers.ts:58-64 | nothing for a null or empty next cursor; otherwise pushes the current cursor (null as "") and fetches the next one, ending not loading, with the page, cursors and a cleared error on success and only the error changed on failure |
| RegistryPager.Pager.GoToPreviousPage | hooks/useRegistryServers.ts:66-76 | nothing on an empty history; otherwise pops the last cursor and fetches it, with "" meaning the first page, ending not loading, with the page, cursors and a cleared error on success and only the error changed on failure |
| RegistryPager.Pager.Refetch | hooks/useRegistryServers.ts:78-92 | clears history, cursors and servers, and fetches the first page |
| RegistryPager.NextThenPrevious | hooks/useRegistryServers.ts:58-76 | next followed by previous fetches the original cursor again and restores the history |
| RegistryPager.EmptyNextCursorIsStuck | hooks/useRegistryServers.ts:16-59 | an empty next cursor shows a next page that `goToNextPage` will not go to |
| StoreHooks.MergeServer | hooks/use-mcp-store-hooks.ts:29-39 | status and session come from the first connection of the server; tools are the connection's when it has them, else the server's, else [] |
| StoreHooks.MergeAll | hooks/use-mcp-store-hooks.ts:29-40 | the merge keeps the base list's length and order |
| StoreHooks.ToolsFallback | hooks/use-mcp-store-hooks.ts:38 | only the first connection is consulted: its tools (even []) win, else the server's, else [] |
| StoreHooks.FirstConnectionDecides | hooks/use-mcp-store-hooks.ts:30-32 | of two connections for one server the earlier one decides |
| StoreHooks.FilteredServers | hooks/use-mcp-store-hooks.ts:126-160 | the active tab's merged list, keeping exactly the servers that match a non-empty query and the selected category |
| StoreHooks.NoFilterKeepsAll | hooks/use-mcp-store-hooks.ts:142-157 | with no query and no category, nothing is filtered out |
| StoreHooks.NameMatchFound | hooks/use-mcp-store-hooks.ts:144-147 | a server whose name equals the query in any case is found |
| StoreHooks.MountFetches | hooks/use-mcp-store-hooks.ts:45-47 | the mount fetch happens exactly for an empty list that is not loading |
| StoreHooks.StoreRegistryFlags | hooks/use-mcp-store-hooks.ts:288-289 | the store's next-page flag needs a non-empty cursor; the previous-page flag needs a non-empty history |
| FilteredServers.IsFiltering | hooks/useMcpServersFiltered.ts:30 | filtering exactly when the trimmed query or the category slug is non-empty |
| FilteredServers.BlankSearchDoesNotFilter | hooks/useMcpServersFiltered.ts:30 | a whitespace-only query does not filter |
| FilteredServers.RequestParams | hooks/useMcpServersFiltered.ts:43-49 | limit and offset are always sent; the trimmed search only when it is non-empty |
| FilteredServers.MergeWithConnectionState | hooks/useMcpServersFiltered.ts:97-114 | a stored CONNECTED entry under the server's id overrides status and tools; otherwise the server's status or DISCONNECTED, and its tools or [] |
| FilteredServers.MergedStatus | hooks/useMcpServersFiltered.ts:97-114 | a merged server is CONNECTED exactly when its stored entry or the server itself says so |
| FilteredServers.FilteredServersHook.constructor | hooks/useMcpServersFiltered.ts:91-94 | with filters, the first page is fetched at offset 0; without them there is no data |
| FilteredServers.FilteredServersHook.HasNextPage | hooks/useMcpServersFiltered.ts:138 | exactly the loaded page's `hasNextPage` |
| FilteredServers.FilteredServersHook.Servers | hooks/useMcpServersFiltered.ts:116-120 | none unless filtering; otherwise the loaded nodes merged with the stored state |
| FilteredServers.FilteredServersHook.FetchServers | hooks/useMcpServersFiltered.ts:33-88 | without filters the data is cleared; an append fetch adds the new edges after the old ones; any other fetch replaces the data; a failure keeps it |
| FilteredServers.FilteredServersHook.LoadMore | hooks/useMcpServersFiltered.ts:125-132 | nothing without a next page or while loading more; otherwise the offset advances by limit and that page is appended with the error cleared, or a failure keeps the data and records its message; the no-op changes nothing, flags included |
| ConnectionProvider.KeyOf | components/providers/ConnectionProvider.tsx:38 | the key is the server id, or the session id when the server id is empty |
| ConnectionProvider.BuildConnectionsMap | components/providers/ConnectionProvider.tsx:37-41 | the `reduce` builds the keyed object entry by entry |
| ConnectionProvider.LaterConnectionWins | components/providers/ConnectionProvider.tsx:37-41 | each key occurs once and holds the last connection with that key |
| ConnectionProvider.View | components/providers/ConnectionProvider.tsx:49-81 | without a filter all connections; with one exactly the entries whose key passes it; the active count is the CONNECTED ones among them and never exceeds their number |
| ConnectionProvider.FilteredViewEntries | components/providers/ConnectionProvider.tsx:66-71 | a key is present in the filtered view exactly when it passes the filter, with the same connection |
| ConnectionProvider.Provider.constructor | components/providers/ConnectionProvider.tsx:22-28 | no connections, not yet validated |
| ConnectionProvider.Provider.FetchConnections | components/providers/ConnectionProvider.tsx:29-47 | a successful fetch replaces the map; a failed one leaves it unchanged |
| ConnectionProvider.Provider.Load | components/providers/ConnectionProvider.tsx:84-99 | the first load fetches and ends with `isValidating` false; later loads do nothing |
| ConnectionProvider.LoadTwiceFetchesOnce | components/providers/ConnectionProvider.tsx:84-99 | two loads fetch once |
| McpConnection.ExtractServerUrl | hooks/useMcpConnection.ts:27-29 | `remoteUrl`, else `url`, else none, with empty strings treated as missing |
| McpConnection.ExtractTransport | hooks/useMcpConnection.ts:31-33 | `transportType`, else `transport`, else none, by the same rule |
| McpConnection.GetConnectionStatus | hooks/useMcpConnection.ts:50-53 | CONNECTED exactly when the stored entry is CONNECTED; otherwise DISCONNECTED |
| McpConnection.StatusHelpersAgree | hooks/useMcpConnection.ts:50-58 | `isServerConnected` agrees with the status, and a missing entry is DISCONNECTED |
| McpConnection.GetServerTools | hooks/useMcpConnection.ts:60-62 | the stored tools, or [] |
| McpConnection.ActiveConnections | hooks/useMcpConnection.ts:65-72 | no larger than the connections |
| McpConnection.ActiveConnectionCount | hooks/useMcpConnection.ts:74-76 | the size of the active sub-map |
| McpConnection.ActiveConnectionsExact | hooks/useMcpConnection.ts:65-72 | the active sub-map holds exactly the CONNECTED entries |
| McpConnection.MergeWithStoredState | hooks/useMcpConnection.ts:84-100 | keeps length, order, ids and names, and gives every server a status |
| McpConnection.MergeOne | hooks/useMcpConnection.ts:85-99 | one server keeps its id and name and gets a status |
| McpConnection.MergeTakesStoredState | hooks/useMcpConnection.ts:84-100 | a `serverId` match copies status and tools (default []); otherwise the server's own status or DISCONNECTED |
| McpConnection.ConnectionHook.constructor | hooks/useMcpConnection.ts:35-43 | not connecting and no error |
| McpConnection.ConnectionHook.Connect | hooks/useMcpConnection.ts:102-139 | without a URL only a toast and no connect call; otherwise one connect call with the callback URL; a failure is recorded and shown; `isConnecting` ends false |
| McpConnection.ConnectionHook.Disconnect | hooks/useMcpConnection.ts:141-178 | disconnects the session found by server id, else under the server's id; with neither only a toast |
| McpTypes.FirstByServerId | hooks/use-mcp-store-hooks.ts:30-32 | the first connection whose `serverId` matches, or none when none does |
| McpTypes.FilterAppend | hooks/useMcpTools.ts:52-56 | `filter` keeps order: it distributes over concatenation |
| Strings.Or | app/api/mcp/auth/callback/route.ts:36 | `a \|\| b` on strings: a when truthy, else b |
| Strings.TrimEmptyIff | hooks/useMcpServersFiltered.ts:30 | `trim()` is empty exactly for an all-whitespace string |
| Strings.Lower | hooks/use-mcp-store-hooks.ts:144-148 | `toLowerCase` keeps the length and lowers each character |
| McpTools.MetadataFor | hooks/useMcpTools.ts:91-95 | the `Map` lookup finds the last node with that name, and none when no node has it |
| McpTools.ToServer | hooks/useMcpTools.ts:94-105 | name, session and status from the connection; tools default to []; transport and url from the metadata; headers always null |
| McpTools.ServersFor | hooks/useMcpTools.ts:42-106 | no valid names gives []; every result is CONNECTED, validated and has no headers; the i-th result is the i-th usable entry joined with its metadata |
| McpTools.UsableEntries | hooks/useMcpTools.ts:52-56 | exactly the connected entries whose names passed validation |
| McpTools.ServersForAppend | hooks/useMcpTools.ts:52-96 | the servers come out in store order |
| McpTools.UsableEntriesOffered | hooks/useMcpTools.ts:52-96 | every connected and validated entry is offered, joined with the metadata of its name |
| McpTools.ToolsHook.constructor | hooks/useMcpTools.ts:28-31 | no servers, loading |
| McpTools.ToolsHook.LoadMcpServers | hooks/useMcpTools.ts:32-115 | outside a browser only `loading` changes; an error gives []; otherwise the usable entries joined with the catalogue; `loading` ends false |
| ToolsDropdown.EntryOf | components/playground/MCPToolsDropdown.tsx:44-50 | transport defaults to "sse" and url to ""; headers are copied |
| ToolsDropdown.BuildMcpConfig | components/playground/MCPToolsDropdown.tsx:38-52 | the `forEach` builds the config of the selected servers |
| ToolsDropdown.ConfigEntries | components/playground/MCPToolsDropdown.tsx:38-52 | the config has one entry exactly for each selected name some server carries, built from the last such server |
| ToolsDropdown.ToolNames | components/playground/MCPToolsDropdown.tsx:58 | the tool names in order |
| ToolsDropdown.ToolsFromServers | components/playground/MCPToolsDropdown.tsx:55-59 | a tool is listed exactly when some selected server brings it |
| ToolsDropdown.ToolsFromOneServer | components/playground/MCPToolsDropdown.tsx:55-59 | one server contributes its tool names in order exactly when selected |
| ToolsDropdown.ToolsFromServersAppend | components/playground/MCPToolsDropdown.tsx:55-59 | the list is built server by server in `mcpServers` order |
| ToolsDropdown.NothingSelected | components/playground/MCPToolsDropdown.tsx:99-108 | no selected name gives no tools and an empty config |
| ToolsDropdown.Without | components/playground/MCPToolsDropdown.tsx:70 | removes every copy of the name and keeps the rest |
| ToolsDropdown.WithoutAbsent | components/playground/MCPToolsDropdown.tsx:70 | removing an absent name changes nothing |
| ToolsDropdown.WithoutAppend | components/playground/MCPToolsDropdown.tsx:70 | removal distributes over concatenation |
| ToolsDropdown.ToggleServer | components/playground/MCPToolsDropdown.tsx:68-72 | the name ends selected exactly when it was not, and other names keep their membership |
| ToolsDropdown.ToggleTwice | components/playground/MCPToolsDropdown.tsx:68-72 | toggling an absent name twice restores the list |
| ToolsDropdown.ServerNames | components/playground/MCPToolsDropdown.tsx:86 | every server name, in order |
| ToolsDropdown.SelectAllCoversEverything | components/playground/MCPToolsDropdown.tsx:85-97 | after "select all" every server has a config entry and every tool is listed |
| ToolsDropdown.Dropdown.constructor | components/playground/MCPToolsDropdown.tsx:30-32 | starts from the parent's selection |
| ToolsDropdown.Dropdown.Sync | components/playground/MCPToolsDropdown.tsx:33-35 | the local selection follows the parent's |
| ToolsDropdown.Dropdown.SelectionFor | components/playground/MCPToolsDropdown.tsx:74-78 | the selection of a name list: the names, their tools and their config |
| ToolsDropdown.Dropdown.Toggle | components/playground/MCPToolsDropdown.tsx:67-83 | the toggled selection is kept and the same value is reported |
| ToolsDropdown.Dropdown.SelectAll | components/playground/MCPToolsDropdown.tsx:85-97 | every server selected; the same value is kept and reported |
| ToolsDropdown.Dropdown.DeselectAll | components/playground/MCPToolsDropdown.tsx:99-108 | the empty selection, the one an empty name list builds; kept and reported |
| ChatMessage.TextParts | components/playground/ChatMessage.tsx:47-50 | no more texts than parts, and none exactly when no part is of type "text" |
| ChatMessage.TextPartsOne | components/playground/ChatMessage.tsx:47-50 | one part gives its text, or "", exactly when it is a text part |
| ChatMessage.TextPartsAppend | components/playground/ChatMessage.tsx:47-50 | the texts come out in the parts' order |
| ChatMessage.MessageContent | components/playground/ChatMessage.tsx:43-56 | a string message as it is; a content array shows its text parts joined by " "; falsy content gives `text` or ""; string content as it is; only object content is handed on unchanged |
| ChatMessage.JoinEmptyIff | components/playground/ChatMessage.tsx:51 | a join with a non-empty separator is empty exactly for no parts or one empty part |
| ChatMessage.JoinLength | components/playground/ChatMessage.tsx:51 | a join is as long as its parts plus one separator between each two |
| ChatMessage.AssistantRendersIff | components/playground/ChatMessage.tsx:85-105 | the assistant renders a body exactly for non-empty text, object content, or text parts that join to something |
| ChatMessage.NoTextPartsShowNothing | components/playground/ChatMessage.tsx:47-55 | a content array without text parts shows "", even when `text` is set |
| ChatMessage.PartsTextLength | components/playground/ChatMessage.tsx:47-51 | the shown text is as long as the text parts plus one space between each two |

## Left out

- Redis connection lifecycle (`initRedis`, retry strategy, events, `isRedisConnected`, `disconnect`). `useRedis` is a constructor flag, and Redis command failures (the `catch` blocks that only log) are not modelled.
- Time passing in Redis is not modelled. An entry's `ttl` is the last TTL set, and -1 stands for "none".
- `generateSessionId` is left out because it uses `Math.random`. The `nanoid` draw is a parameter constrained to 21 alphanumeric characters.
- `SessionStore.removeSession` and `SessionStore.updateTokens` are called by app/api/mcp/tool/list/route.ts and app/api/mcp/server-config/route.ts, but the store does not define them. The model leaves both uncalled. In `ServerConfig.Post` the token-refresh block (lines 63-81) therefore changes nothing, and it could only log.
- `client.getValidTokens()` and `oauthProvider.tokens()` belong to a client class that is not part of this model. What `tokens()` yields per client is a parameter, including a Promise that is never awaited (which has no `access_token`).
- The provider stores JSON text. The model stores the parsed record, and stands for text that is not a JSON object by a text payload.
- OAuthProvider.ReadRecord: every text payload reads as `{}`. A stored JSON primitive (`null`, `123`, `true`) parses in the source and is then used as an object: its members read as missing, and reading or writing a member of `null` throws. `saveSessionData` also spreads a stored primitive without failing, where the model's `Mergeable` treats every non-empty text as a failed parse.
- JsObject: entries keep insertion order. JavaScript puts integer-like keys (such as `"10"`) first, in ascending order, and that reordering is not modelled.
- Provider reads do not refresh the record's TTL. The code is followed here: only saves write TTL 43200.
- The two files disagree on keys and TTLs (`mcp:session:{userId}:{sessionId}` with 43200 versus `mcp:session:{sessionId}` with 86400). Both are modelled as written, and `StoreAgreement` states the consequences.
- SessionStore.SessionStore.RemoveServerSession: its contract does not give the new index exactly, because `removeClient` drops an arbitrary mapping per session. It states that the pair is gone, that no empty inner map remains, and which sessions can still be keys. The mapped session id is a ghost out-parameter tied to `MappedSession` of the old state.
- SessionStore.SessionStore.GetClientByServer: the TTLs of the two keys the lookups may refresh are not given exactly; keys, payloads, every other entry, the index and the client map are.
- SessionStore.SessionStore.ClearAll: `forEach` order over the client map is abstracted. The disconnect log holds every client in some order.
- SessionStore.FindMapping: map iteration order is abstracted. `removeClient` drops some mapping to the id in each session, not necessarily the first one inserted.
- ServerConfig.Post: the loop over `Object.entries(mcpConfig)` is modelled on a map. Key order and `__proto__`-style keys are not modelled. With a `null` entry, which lookups ran before the TypeError depends on key order, and the lookups change nothing later lookups see. The TypeError's text is the JavaScript engine's, so it is a parameter.
- ServersRoute.HandleGet: the page is taken from the matching rows in table order. Prisma's `orderBy` is parsed and returned with the page but not applied. A NaN `limit` or `offset`, or a negative `offset`, is answered 500, as the database refuses `skip` below zero and non-integers. The 500's message is the model's own, not the database's.
- ServersRoute.Matching: follows the intended `where`. The clause as written also lists every private server to a signed-out caller (see Findings, and `ServersRoute.ListedAsWritten`).
- ServersRoute.ListedServersVisible: proves the intended visibility. As written, a signed-out caller is also shown private servers (see Findings).
- ServersRoute.PageHasNextIffMore: stated for a non-negative `limit` only. With a negative `limit`, `hasNextPage` compares `offset + limit` with the count and need not match the rows left (`ServersRoute.NegativeLimitFromEnd`).
- SessionStore.SessionStore.RemoveClient: the Redis `KEYS` pattern `mcp:session:session:<sessionId>:url:*` is matched as a plain prefix. A session id holding `*`, `?`, `[` or `\` would make the real glob match other sessions' mapping keys too, and the model deletes fewer keys than Redis would for such an id.
- The Prisma schema appears as the table's invariant: unique `(name, ownerId)`, and both foreign keys of a link (its server and its category). `createMany` is taken to insert all of its rows or none, so one unknown category id leaves the server with no link. `skipDuplicates` is the link set's uniqueness. The database's error text for a foreign-key failure is not modelled (`DatabaseError`). The Supabase user lookup and `syncUser` are parameters.
- CategoriesRoute.HandleCategories: names are ordered by code unit. The database collation is not modelled. A negative `limit` counts from the end, as for the server list; the 500 message for a NaN value or a negative `offset` is the model's own.
- Client-side fetches complete synchronously inside the method that starts them. React's batching, stale closures and effects re-running on dependency changes are not modelled, apart from the mount-time guards.
- `validateConnections` in hooks/useMcpConnection.ts is a deprecated wrapper around the store and is left out. So is `UNSUPPORTED_TRANSPORTS`, which nothing uses.
- `connectionStore.getValidConnections()` and the GraphQL metadata query in `useMcpTools` are oracles. Their results are parameters.
- McpTools.ToolsHook.LoadMcpServers: a successful query whose `data` is missing gives an empty catalogue. A thrown `fetch` or `response.json()` counts as a failed query.
- ToolsDropdown.BuildMcpConfig: the `filter` and the `forEach` are one loop. A server name such as `__proto__` is not modelled.
- ChatMessage.MessageContent: a part's `text` is taken to be a string (or missing), and React's rendering of a non-string content object is not modelled.
- Strings.Lower: `toLowerCase` lowers ASCII letters only. Full Unicode case mapping is not modelled.
- Log messages, the popup and `postMessage` flow, rendering components, and the thin routes over unseen clients (tool list and call, disconnect, copilotkit, chat, user profile) are outside this model.

## Findings

| source | as written | input that shows it | evidently intended | confidence | as-written member | corrected member |
|---|---|---|---|---|---|---|
| app/api/mcp/route.ts:128-142 | `validFields[field]` is looked up on a plain object literal, so inherited `Object.prototype` members are found too | `GET /api/mcp?orderBy=toString` (also `constructor`, `valueOf`, `-hasOwnProperty`): the guard passes and the value reaches Prisma's `orderBy`, failing later with 500 instead of 400 | only the five listed fields pass, and anything else is answered 400 "Invalid orderBy field" | high; not executed | ServersRoute.InheritedNamePassesGuard | ServersRoute.ParseOrderBy |
| app/api/mcp/route.ts:145-149 | the owner branch of the `OR` falls back to `{ ownerId: undefined }` without a user, and Prisma reads an undefined field as no condition, so that branch is an empty filter that every row passes | `GET /api/mcp` with no session, on a table holding a private server: the server is listed, and counted in `totalCount` | a signed-out caller sees public servers only | medium; not executed | ServersRoute.SignedOutSeesPrivateRows | ServersRoute.ListedServersVisible |
